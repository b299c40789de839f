/** The moves of `follow_rechannelled` (cpersona/associations.py): each channel's parcel is
    carried, what was carried is taken from the old channel, and an entity nothing there
    names any more is deleted. */
module Follow {
  import opened Common
  import opened Graph
  import opened Carry
  import opened Rechannel

  function Refiled(rec: EntityRecord, c: Channel): EntityRecord {
    rec.(scope := rec.scope.(channel := c))
  }

  function EntitiesOf(g: Reading, c: Channel, ids: seq<nat>, n: nat): (r: seq<EntityRecord>)
    requires n <= |ids| && forall i | 0 <= i < |ids| :: ids[i] in g.entities
    ensures |r| == n && forall i | 0 <= i < n :: r[i] == Refiled(g.entities[ids[i]], c)
  {
    if n == 0 then [] else EntitiesOf(g, c, ids, n - 1) + [Refiled(g.entities[ids[n-1]], c)]
  }

  function MentionRow(s: Store, m: (nat, Ref)): MentionRecord
    requires m in s.mentions
  {
    MentionRecord(Some(m.0), Some(m.1), Some(s.mentions[m].declaredBy), Some(s.mentions[m].at))
  }

  function MentionsOf(s: Store, ms: seq<(nat, Ref)>, n: nat): (r: seq<MentionRecord>)
    requires n <= |ms| && forall m | m in ms :: m in s.mentions
    ensures |r| == n && forall i | 0 <= i < n :: r[i] == MentionRow(s, ms[i])
  {
    if n == 0 then [] else MentionsOf(s, ms, n - 1) + [MentionRow(s, ms[n-1])]
  }

  function RelationRow(s: Store, r: Relation, c: Channel): RelationRecord
    requires r in s.relations
  {
    RelationRecord(r.scope.(channel := c), Some(r.subject), Some(r.verb), Some(r.target),
                   if r.anchor.None? then None else Some(r.anchor),
                   Some(s.relations[r].declaredBy), Some(s.relations[r].at))
  }

  function RelationsOf(s: Store, rs: seq<Relation>, c: Channel, n: nat): (r: seq<RelationRecord>)
    requires n <= |rs| && forall a | a in rs :: a in s.relations
    ensures |r| == n && forall i | 0 <= i < n :: r[i] == RelationRow(s, rs[i], c)
  {
    if n == 0 then [] else RelationsOf(s, rs, c, n - 1) + [RelationRow(s, rs[n-1], c)]
  }

  /** A parcel holds what was read. */
  ghost predicate ParcelOf(s: Store, g: Reading, p: Parcel) {
    && (forall i | 0 <= i < |p.entities| :: p.entities[i] in g.entities && g.entities[p.entities[i]].id == p.entities[i])
    && (forall i, j | 0 <= i < j < |p.entities| :: p.entities[i] != p.entities[j])
    && (forall m | m in p.mentions :: m in s.mentions && MentionPacked(p, g, m))
    && (forall r | r in p.relations :: r in s.relations && RelationPacked(p, g, r))
  }

  function BundleOf(s: Store, g: Reading, c: Channel, p: Parcel): Bundle
    requires ParcelOf(s, g, p)
  {
    Bundle(EntitiesOf(g, c, p.entities, |p.entities|), MentionsOf(s, p.mentions, |p.mentions|),
           RelationsOf(s, p.relations, c, |p.relations|))
  }

  function EndsOf(p: Parcel): set<nat> {
    (set r | r in p.relations && r.subject.Thing? :: r.subject.entity)
      + (set r | r in p.relations && r.target.Thing? :: r.target.entity)
  }

  /** Endpoints filed elsewhere are named as they are. */
  function InPlace(p: Parcel): map<nat, nat> {
    map e | e in EndsOf(p) && e !in p.entities :: e
  }

  function AsIs(now: int): Way {
    Way(NoAgent, None, now)
  }

  function CarryParcel(t: Store, s: Store, g: Reading, c: Channel, p: Parcel, now: int): Carried
    requires ParcelOf(s, g, p)
  {
    CarriedGraph(t, BundleOf(s, g, c, p), AsIs(now), InPlace(p))
  }

  // ---- images ------------------------------------------------------------------------------

  /** `h` is what entity `e` of the reading became in channel `c`. */
  predicate ImageOf(s: Store, t: Store, e: nat, h: nat, c: Channel) {
    && e in s.names.entities && h in t.names.entities
    && t.names.entities[h].scope == s.names.entities[e].scope.(channel := c)
    && Named(t.names, h, s.names.entities[e].name.normalized)
  }

  ghost predicate MentionMoved(s: Store, t: Store, m: (nat, Ref), c: Channel) {
    exists h: nat :: ImageOf(s, t, m.0, h, c) && (h, m.1) in t.mentions
  }

  ghost predicate AliasMoved(s: Store, t: Store, e: nat, n: Norm, c: Channel) {
    exists h: nat :: ImageOf(s, t, e, h, c) && (h, n) in t.names.aliases
  }

  /** An end stays, unless it is an entity of the old channel, which becomes its image. */
  predicate EndMoved(s: Store, t: Store, g: Reading, from: End, to: End, c: Channel) {
    if from.Thing? && from.entity in g.entities then to.Thing? && ImageOf(s, t, from.entity, to.entity, c)
    else to == from
  }

  predicate RelationImage(s: Store, t: Store, g: Reading, r: Relation, q: Relation, c: Channel) {
    && q in t.relations
    && q.scope == r.scope.(channel := c) && q.verb == r.verb && q.anchor == r.anchor
    && EndMoved(s, t, g, r.subject, q.subject, c) && EndMoved(s, t, g, r.target, q.target, c)
  }

  ghost predicate RelationMoved(s: Store, t: Store, g: Reading, r: Relation, c: Channel) {
    exists q :: RelationImage(s, t, g, r, q, c)
  }

  // ---- one parcel arrives --------------------------------------------------------------------

  lemma {:induction false} NoneUnusable(l: Landed, es: seq<EntityRecord>, n: nat, way: Way)
    requires n <= |es|
    ensures LandAll(l, es, n, way).dropped >= l.dropped
    ensures LandAll(l, es, n, way).dropped == l.dropped ==> forall i | 0 <= i < n :: Usable(way, es[i])
  {
    if n > 0 {
      NoneUnusable(l, es, n - 1, way);
    }
  }

  lemma {:induction false} NotRefused(a: Attached, e: nat, alias: Option<Term>)
    requires e in a.names.entities
    ensures var b := Attach(a, e, alias);
      && (b.dropped == 0 ==> a.dropped == 0 && alias.Some? && (e, alias.value.normalized) in b.names.aliases)
      && a.names.aliases.Keys <= b.names.aliases.Keys
  {
  }

  ghost predicate HasFirst(x: Names, e: nat, aliases: seq<Option<Term>>, n: nat)
    requires n <= |aliases|
  {
    forall i | 0 <= i < n :: aliases[i].Some? && (e, aliases[i].value.normalized) in x.aliases
  }

  lemma {:induction false} NoneRefused(x: Names, e: nat, aliases: seq<Option<Term>>, n: nat, maxAliases: nat)
    requires n <= |aliases| && e in x.entities
    ensures var a := AliasesAttached(x, e, aliases, n, maxAliases);
      a.dropped == 0 ==> HasFirst(a.names, e, aliases, n)
  {
    if n > 0 {
      var before, alias := AliasesAttached(x, e, aliases, n - 1, maxAliases), if n > maxAliases then None else aliases[n-1];
      NoneRefused(x, e, aliases, n - 1, maxAliases);
      NotRefused(before, e, alias);
      OneMoreHeld(before.names, Attach(before, e, alias).names, e, aliases, n);
    }
  }

  lemma {:induction false} OneMoreHeld(x: Names, y: Names, e: nat, aliases: seq<Option<Term>>, n: nat)
    requires 0 < n <= |aliases| && x.aliases.Keys <= y.aliases.Keys
    ensures HasFirst(x, e, aliases, n - 1) && aliases[n-1].Some? && (e, aliases[n-1].value.normalized) in y.aliases ==>
      HasFirst(y, e, aliases, n)
  {
  }

  ghost predicate HasAliases(x: Names, h: nat, aliases: seq<Option<Term>>) {
    HasFirst(x, h, aliases, |aliases|)
  }

  /** An entity not reported incomplete has every alias where it landed. */
  ghost predicate Whole(l: Landed, e: EntityRecord) {
    e.id in l.at && (e.id !in l.incomplete ==> HasAliases(l.names, l.at[e.id], e.aliases))
  }

  lemma {:induction false} LandsWhole(l: Landed, e: EntityRecord, way: Way)
    requires Usable(way, e)
    ensures Whole(Land(l, e, way), e)
  {
    var p := EntityPlaced(l.names, e, way);
    NoneRefused(p.names, p.entity, e.aliases, |e.aliases|, |e.aliases|);
  }

  lemma {:induction false} StaysWhole(l: Landed, e: EntityRecord, next: EntityRecord, way: Way)
    requires ValidNames(l.names) && Whole(l, e) && next.id != e.id
    ensures Whole(Land(l, next, way), e)
  {
    LandKeeps(l, next, way);
  }

  lemma {:induction false} AllWhole(l: Landed, es: seq<EntityRecord>, n: nat, way: Way, i: nat)
    requires i < n <= |es| && ValidNames(l.names) && Usable(way, es[i])
    requires forall a, b | 0 <= a < b < |es| :: es[a].id != es[b].id
    ensures Whole(LandAll(l, es, n, way), es[i])
  {
    if i < n - 1 {
      AllWhole(l, es, n - 1, way, i);
      assert ValidNames(LandAll(l, es, n - 1, way).names) by {
        LandAllKeeps(l, es, n - 1, way);
      }
      StaysWhole(LandAll(l, es, n - 1, way), es[i], es[n-1], way);
    } else {
      LandsWhole(LandAll(l, es, n - 1, way), es[i], way);
    }
  }

  lemma {:induction false} BundleIsKeyed(s: Store, g: Reading, c: Channel, p: Parcel)
    requires ParcelOf(s, g, p)
    ensures var es := BundleOf(s, g, c, p).entities;
      && |es| == |p.entities|
      && (forall i | 0 <= i < |es| :: es[i] == Refiled(g.entities[p.entities[i]], c) && es[i].id == p.entities[i])
      && (forall a, b | 0 <= a < b < |es| :: es[a].id != es[b].id)
  {
  }

  /** Where one entity of a parcel lands. */
  lemma {:induction false} ParcelLands(t: Store, s: Store, g: Reading, c: Channel, p: Parcel, now: int, i: nat)
    requires ParcelOf(s, g, p) && i < |p.entities|
    requires ValidNames(t.names) && CarryParcel(t, s, g, c, p, now).dropped == 0
    ensures var l, e := CarryParcel(t, s, g, c, p, now).landed, Refiled(g.entities[p.entities[i]], c);
      && Usable(AsIs(now), e) && Whole(l, e)
      && e.id in l.owners && l.owners[e.id] == e.scope.agent
      && LandedAs(l.names, e, AsIs(now), l.at[e.id])
  {
    var es, start := BundleOf(s, g, c, p).entities, Start(t, InPlace(p));
    BundleIsKeyed(s, g, c, p);
    assert CarryParcel(t, s, g, c, p, now).landed.dropped == 0 by {
      CarryArrives(t, BundleOf(s, g, c, p), AsIs(now), InPlace(p));
    }
    NoneUnusable(start, es, |es|, AsIs(now));
    AllLanded(start, es, |es|, AsIs(now), i);
    AllWhole(start, es, |es|, AsIs(now), i);
  }

  lemma {:induction false} LandedIsImage(s: Store, t: Store, g: Reading, c: Channel, e: nat, h: nat, now: int, agent: Agent, from: Channel)
    requires Reads(s, agent, from, g) && e in g.entities
    requires Usable(AsIs(now), Refiled(g.entities[e], c)) && LandedAs(t.names, Refiled(g.entities[e], c), AsIs(now), h)
    ensures ImageOf(s, t, e, h, c)
  {
    assert Describes(s.names, e, g.entities[e]);
  }

  lemma {:induction false} ParcelSeeds(t: Store, s: Store, g: Reading, c: Channel, p: Parcel, now: int, e: nat)
    requires ParcelOf(s, g, p) && e in EndsOf(p) && e !in p.entities
    ensures var l := CarryParcel(t, s, g, c, p, now).landed; e in l.at && l.at[e] == e
  {
    var es := BundleOf(s, g, c, p).entities;
    BundleIsKeyed(s, g, c, p);
    assert forall i | 0 <= i < |es| :: p.entities[i] in p.entities;
    LandedAtStays(Start(t, InPlace(p)), es, |es|, AsIs(now), e);
  }

  // ---- the parcel's declarations arrive ------------------------------------------------------

  lemma {:induction false} EntityArrives(t: Store, s: Store, g: Reading, c: Channel, p: Parcel, now: int, e: nat, agent: Agent, from: Channel)
    requires ParcelOf(s, g, p) && Reads(s, agent, from, g) && e in p.entities
    requires ValidNames(t.names) && CarryParcel(t, s, g, c, p, now).dropped == 0
    ensures var done := CarryParcel(t, s, g, c, p, now);
      && e in done.landed.at && e in done.landed.owners
      && ImageOf(s, done.store, e, done.landed.at[e], c)
      && (e !in done.landed.incomplete ==>
           forall n | (e, n) in s.names.aliases :: (done.landed.at[e], n) in done.store.names.aliases)
  {
    var done := CarryParcel(t, s, g, c, p, now);
    var i :| 0 <= i < |p.entities| && p.entities[i] == e;
    ParcelLands(t, s, g, c, p, now, i);
    assert done.store.names == done.landed.names by {
      CarryArrives(t, BundleOf(s, g, c, p), AsIs(now), InPlace(p));
    }
    LandedIsImage(s, done.store, g, c, e, done.landed.at[e], now, agent, from);
    assert Describes(s.names, e, g.entities[e]);
    forall n | (e, n) in s.names.aliases && e !in done.landed.incomplete
      ensures (done.landed.at[e], n) in done.store.names.aliases
    {
      var rec := Refiled(g.entities[e], c);
      var j :| 0 <= j < |rec.aliases| && rec.aliases[j] == Some(Term(s.names.aliases[(e, n)], n));
    }
  }

  lemma {:induction false} MentionIsWritten(t: Store, b: Bundle, way: Way, seeds: map<nat, nat>, i: nat)
    requires i < |b.mentions| && CarriedGraph(t, b, way, seeds).dropped == 0
    ensures var done := CarriedGraph(t, b, way, seeds);
      var k := MentionHere(done.landed, t.records, way, b.mentions[i]);
      k.Some? && k.value in done.store.mentions
  {
    CarryArrives(t, b, way, seeds);
  }

  lemma {:induction false} RelationIsWritten(t: Store, b: Bundle, way: Way, seeds: map<nat, nat>, i: nat)
    requires i < |b.relations| && CarriedGraph(t, b, way, seeds).dropped == 0
    ensures var done := CarriedGraph(t, b, way, seeds);
      var k := RelationHere(done.landed, t.records, way, b.relations[i]);
      k.Some? && k.value in done.store.relations
  {
    CarryArrives(t, b, way, seeds);
  }

  /** The row a mention is written as: the same record, of where its entity landed. */
  lemma {:induction false} MentionRowHere(l: Landed, records: map<Ref, Agent>, s: Store, m: (nat, Ref), now: int)
    requires m in s.mentions && MentionHere(l, records, AsIs(now), MentionRow(s, m)).Some?
    ensures m.0 in l.at && MentionHere(l, records, AsIs(now), MentionRow(s, m)) == Some((l.at[m.0], m.1))
  {
  }

  lemma {:induction false} MentionImaged(s: Store, done: Carried, records: map<Ref, Agent>, m: (nat, Ref), c: Channel, now: int)
    requires m in s.mentions
    requires var k := MentionHere(done.landed, records, AsIs(now), MentionRow(s, m)); k.Some? && k.value in done.store.mentions
    requires m.0 in done.landed.at && ImageOf(s, done.store, m.0, done.landed.at[m.0], c)
    ensures MentionMoved(s, done.store, m, c)
  {
    MentionRowHere(done.landed, records, s, m, now);
  }

  lemma {:induction false} MentionArrives(t: Store, s: Store, g: Reading, c: Channel, p: Parcel, now: int, i: nat, agent: Agent, from: Channel)
    requires ParcelOf(s, g, p) && Reads(s, agent, from, g) && i < |p.mentions|
    requires ValidNames(t.names) && CarryParcel(t, s, g, c, p, now).dropped == 0
    ensures MentionMoved(s, CarryParcel(t, s, g, c, p, now).store, p.mentions[i], c)
  {
    assert MentionPacked(p, g, p.mentions[i]);
    MentionIsWritten(t, BundleOf(s, g, c, p), AsIs(now), InPlace(p), i);
    EntityArrives(t, s, g, c, p, now, p.mentions[i].0, agent, from);
    MentionImaged(s, CarryParcel(t, s, g, c, p, now), t.records, p.mentions[i], c, now);
  }

  lemma {:induction false} EndImaged(s: Store, g: Reading, done: Carried, records: map<Ref, Agent>, end: End, owner: Agent, c: Channel, now: int)
    requires end.Thing? && end.entity in done.landed.at
    requires if end.entity in g.entities then ImageOf(s, done.store, end.entity, done.landed.at[end.entity], c)
      else done.landed.at[end.entity] == end.entity
    ensures var here := EndHere(done.landed, records, AsIs(now), owner, Some(end));
      here.Some? && EndMoved(s, done.store, g, end, here.value, c)
  {
  }

  lemma {:induction false} EndArrives(t: Store, s: Store, g: Reading, c: Channel, p: Parcel, now: int, end: End, owner: Agent, agent: Agent, from: Channel)
    requires ParcelOf(s, g, p) && Reads(s, agent, from, g)
    requires EndPacked(p, g, end) && (end.Thing? ==> end.entity in EndsOf(p))
    requires ValidNames(t.names) && CarryParcel(t, s, g, c, p, now).dropped == 0
    ensures var done := CarryParcel(t, s, g, c, p, now);
      var here := EndHere(done.landed, t.records, AsIs(now), owner, Some(end));
      here.Some? ==> EndMoved(s, done.store, g, end, here.value, c)
  {
    if end.Thing? {
      if end.entity in p.entities {
        EntityArrives(t, s, g, c, p, now, end.entity, agent, from);
      } else {
        ParcelSeeds(t, s, g, c, p, now, end.entity);
      }
      EndImaged(s, g, CarryParcel(t, s, g, c, p, now), t.records, end, owner, c, now);
    }
  }

  /** The row a relation is written as. */
  lemma {:induction false} RelationRowHere(l: Landed, records: map<Ref, Agent>, s: Store, r: Relation, c: Channel, now: int)
    requires r in s.relations && RelationHere(l, records, AsIs(now), RelationRow(s, r, c)).Some?
    ensures var q := RelationHere(l, records, AsIs(now), RelationRow(s, r, c)).value;
      && q.scope == r.scope.(channel := c) && q.verb == r.verb && q.anchor == r.anchor
      && EndHere(l, records, AsIs(now), r.scope.agent, Some(r.subject)) == Some(q.subject)
      && EndHere(l, records, AsIs(now), r.scope.agent, Some(r.target)) == Some(q.target)
  {
  }

  lemma {:induction false} RelationImaged(s: Store, g: Reading, done: Carried, records: map<Ref, Agent>, r: Relation, c: Channel, now: int)
    requires r in s.relations
    requires var k := RelationHere(done.landed, records, AsIs(now), RelationRow(s, r, c)); k.Some? && k.value in done.store.relations
    requires var here := EndHere(done.landed, records, AsIs(now), r.scope.agent, Some(r.subject));
      here.Some? ==> EndMoved(s, done.store, g, r.subject, here.value, c)
    requires var here := EndHere(done.landed, records, AsIs(now), r.scope.agent, Some(r.target));
      here.Some? ==> EndMoved(s, done.store, g, r.target, here.value, c)
    ensures RelationMoved(s, done.store, g, r, c)
  {
    RelationRowHere(done.landed, records, s, r, c, now);
    var q := RelationHere(done.landed, records, AsIs(now), RelationRow(s, r, c)).value;
    assert RelationImage(s, done.store, g, r, q, c);
  }

  lemma {:induction false} RelationArrives(t: Store, s: Store, g: Reading, c: Channel, p: Parcel, now: int, i: nat, agent: Agent, from: Channel)
    requires ParcelOf(s, g, p) && Reads(s, agent, from, g) && i < |p.relations|
    requires ValidNames(t.names) && CarryParcel(t, s, g, c, p, now).dropped == 0
    ensures RelationMoved(s, CarryParcel(t, s, g, c, p, now).store, g, p.relations[i], c)
  {
    var r := p.relations[i];
    assert RelationPacked(p, g, r);
    RelationIsWritten(t, BundleOf(s, g, c, p), AsIs(now), InPlace(p), i);
    EndArrives(t, s, g, c, p, now, r.subject, r.scope.agent, agent, from);
    EndArrives(t, s, g, c, p, now, r.target, r.scope.agent, agent, from);
    RelationImaged(s, g, CarryParcel(t, s, g, c, p, now), t.records, r, c, now);
  }

  // ---- what is never touched --------------------------------------------------------------------

  predicate EntityKept(x: Store, y: Store, e: nat)
    requires e in x.names.entities
  {
    e in y.names.entities && y.names.entities[e] == x.names.entities[e]
  }

  /** Whatever is not filed in the agent's old channel is as it was. */
  ghost predicate KeepsOthers(x: Store, y: Store, agent: Agent, from: Channel) {
    && (forall e | e in x.names.entities && !Filed(x.names.entities[e].scope, agent, from) :: EntityKept(x, y, e))
    && (forall e, n | (e, n) in x.names.aliases && e in x.names.entities && !Filed(x.names.entities[e].scope, agent, from) ::
          (e, n) in y.names.aliases)
    && (forall e, ref | (e, ref) in x.mentions && e in x.names.entities && !Filed(x.names.entities[e].scope, agent, from) ::
          (e, ref) in y.mentions)
    && (forall r | r in x.relations && !Filed(r.scope, agent, from) :: r in y.relations)
  }

  lemma {:induction false} GrowsKeepsOthers(x: Store, y: Store, agent: Agent, from: Channel)
    requires Grows(x, y)
    ensures KeepsOthers(x, y, agent, from)
  {
  }

  lemma {:induction false} KeepsOthersTwice(x: Store, y: Store, z: Store, agent: Agent, from: Channel)
    requires KeepsOthers(x, y, agent, from) && KeepsOthers(y, z, agent, from)
    ensures KeepsOthers(x, z, agent, from)
  {
  }

  /** An image, filed in another channel, is never touched. */
  lemma {:induction false} ImageStays(s: Store, x: Store, y: Store, e: nat, h: nat, c: Channel, agent: Agent, from: Channel)
    requires KeepsOthers(x, y, agent, from) && c != from && ImageOf(s, x, e, h, c)
    ensures ImageOf(s, y, e, h, c)
  {
    assert EntityKept(x, y, h);
  }

  lemma {:induction false} MentionStaysMoved(s: Store, x: Store, y: Store, m: (nat, Ref), c: Channel, agent: Agent, from: Channel)
    requires KeepsOthers(x, y, agent, from) && c != from && MentionMoved(s, x, m, c)
    ensures MentionMoved(s, y, m, c)
  {
    var h: nat :| ImageOf(s, x, m.0, h, c) && (h, m.1) in x.mentions;
    ImageStays(s, x, y, m.0, h, c, agent, from);
  }

  lemma {:induction false} AliasStaysMoved(s: Store, x: Store, y: Store, e: nat, n: Norm, c: Channel, agent: Agent, from: Channel)
    requires KeepsOthers(x, y, agent, from) && c != from && AliasMoved(s, x, e, n, c)
    ensures AliasMoved(s, y, e, n, c)
  {
    var h: nat :| ImageOf(s, x, e, h, c) && (h, n) in x.names.aliases;
    ImageStays(s, x, y, e, h, c, agent, from);
  }

  lemma {:induction false} EndStaysMoved(s: Store, x: Store, y: Store, g: Reading, end: End, to: End, c: Channel, agent: Agent, from: Channel)
    requires KeepsOthers(x, y, agent, from) && c != from && EndMoved(s, x, g, end, to, c)
    ensures EndMoved(s, y, g, end, to, c)
  {
    if end.Thing? && end.entity in g.entities {
      ImageStays(s, x, y, end.entity, to.entity, c, agent, from);
    }
  }

  lemma {:induction false} RelationStaysMoved(s: Store, x: Store, y: Store, g: Reading, r: Relation, c: Channel, agent: Agent, from: Channel)
    requires KeepsOthers(x, y, agent, from) && c != from && RelationMoved(s, x, g, r, c)
    ensures RelationMoved(s, y, g, r, c)
  {
    var q :| RelationImage(s, x, g, r, q, c);
    EndStaysMoved(s, x, y, g, r.subject, q.subject, c, agent, from);
    EndStaysMoved(s, x, y, g, r.target, q.target, c, agent, from);
    assert RelationImage(s, y, g, r, q, c);
  }

  /** A whole parcel has moved, but for the aliases of the entities that lost one. */
  ghost predicate ParcelMoved(s: Store, t: Store, g: Reading, c: Channel, p: Parcel, incomplete: set<nat>) {
    && (forall m | m in p.mentions :: MentionMoved(s, t, m, c))
    && (forall r | r in p.relations :: RelationMoved(s, t, g, r, c))
    && (forall e, n | e in p.entities && e !in incomplete && (e, n) in s.names.aliases :: AliasMoved(s, t, e, n, c))
  }

  lemma {:induction false} ParcelStaysMoved(s: Store, x: Store, y: Store, g: Reading, c: Channel, p: Parcel,
                                            few: set<nat>, more: set<nat>, agent: Agent, from: Channel)
    requires ParcelMoved(s, x, g, c, p, few) && KeepsOthers(x, y, agent, from) && c != from && few <= more
    ensures ParcelMoved(s, y, g, c, p, more)
  {
    forall m | m in p.mentions ensures MentionMoved(s, y, m, c) {
      MentionStaysMoved(s, x, y, m, c, agent, from);
    }
    forall r | r in p.relations ensures RelationMoved(s, y, g, r, c) {
      RelationStaysMoved(s, x, y, g, r, c, agent, from);
    }
    forall e, n | e in p.entities && e !in more && (e, n) in s.names.aliases ensures AliasMoved(s, y, e, n, c) {
      AliasStaysMoved(s, x, y, e, n, c, agent, from);
    }
  }

  lemma {:induction false} ParcelArrives(t: Store, s: Store, g: Reading, c: Channel, p: Parcel, now: int, agent: Agent, from: Channel)
    requires ParcelOf(s, g, p) && Reads(s, agent, from, g)
    requires ValidNames(t.names) && CarryParcel(t, s, g, c, p, now).dropped == 0
    ensures ParcelMoved(s, CarryParcel(t, s, g, c, p, now).store, g, c, p, CarryParcel(t, s, g, c, p, now).landed.incomplete)
  {
    var done := CarryParcel(t, s, g, c, p, now);
    forall m | m in p.mentions ensures MentionMoved(s, done.store, m, c) {
      var i :| 0 <= i < |p.mentions| && p.mentions[i] == m;
      MentionArrives(t, s, g, c, p, now, i, agent, from);
    }
    forall r | r in p.relations ensures RelationMoved(s, done.store, g, r, c) {
      var i :| 0 <= i < |p.relations| && p.relations[i] == r;
      RelationArrives(t, s, g, c, p, now, i, agent, from);
    }
    forall e, n | e in p.entities && e !in done.landed.incomplete && (e, n) in s.names.aliases
      ensures AliasMoved(s, done.store, e, n, c)
    {
      EntityArrives(t, s, g, c, p, now, e, agent, from);
      assert ImageOf(s, done.store, e, done.landed.at[e], c);
    }
  }

  // ---- carrying every parcel ------------------------------------------------------------------------

  /** How far the carrying has come: whether something could not be written, and which
      entities lost an alias. */
  datatype Following = Following(store: Store, lost: bool, incomplete: set<nat>)

  function CarryNext(f: Following, s: Store, g: Reading, c: Channel, p: Parcel, now: int): Following
    requires ParcelOf(s, g, p)
  {
    var done := CarryParcel(f.store, s, g, c, p, now);
    if done.dropped > 0 then Following(done.store, true, g.entities.Keys + done.landed.incomplete)
    else Following(done.store, f.lost, f.incomplete + done.landed.incomplete)
  }

  ghost predicate Parcels(s: Store, g: Reading, ps: map<Channel, Parcel>) {
    forall c | c in ps :: ParcelOf(s, g, ps[c])
  }

  /** The parcels carried one after another. */
  ghost predicate CarriesAll(run: seq<Following>, s: Store, g: Reading, ps: map<Channel, Parcel>, order: seq<Channel>, now: int)
    requires Parcels(s, g, ps)
  {
    && |run| == |order| + 1 && run[0] == Following(s, false, {})
    && (forall c | c in order :: c in ps)
    && (forall i | 0 <= i < |order| :: CarriesAt(run, s, g, ps, order, now, i))
  }

  ghost predicate CarriesAt(run: seq<Following>, s: Store, g: Reading, ps: map<Channel, Parcel>, order: seq<Channel>, now: int, i: int)
    requires 0 <= i < |order| < |run| && Parcels(s, g, ps) && order[i] in ps
  {
    run[i+1] == CarryNext(run[i], s, g, order[i], ps[order[i]], now)
  }

  lemma {:induction false} CarryNextKeeps(f: Following, h: Following, s: Store, g: Reading, c: Channel, p: Parcel, now: int)
    requires ParcelOf(s, g, p) && Valid(s) && Valid(f.store) && Grows(s, f.store)
    requires h == CarryNext(f, s, g, c, p, now)
    ensures Valid(h.store) && Grows(f.store, h.store) && Grows(s, h.store)
  {
    forall e | e in InPlace(p) ensures e in f.store.names.entities {
      var r :| r in p.relations && (r.subject == Thing(e) || r.target == Thing(e));
      assert RelationStands(s, r);
    }
    CarryKeeps(f.store, BundleOf(s, g, c, p), AsIs(now), InPlace(p));
    GrowsTwice(s, f.store, h.store);
  }

  /** The step that carries the parcel of one place in the order. */
  lemma {:induction false} StepAt(run: seq<Following>, s: Store, g: Reading, ps: map<Channel, Parcel>, order: seq<Channel>,
                                  now: int, i: nat, next: nat)
      returns (f: Following, h: Following, c: Channel, p: Parcel)
    requires Parcels(s, g, ps) && CarriesAll(run, s, g, ps, order, now) && i < |order| && next == i + 1
    ensures f == run[i] && h == run[next] && c == order[i] && c in ps && p == ps[c]
    ensures ParcelOf(s, g, p) && h == CarryNext(f, s, g, c, p, now)
  {
    assert CarriesAt(run, s, g, ps, order, now, i);
    f, h, c := run[i], run[next], order[i];
    p := ps[c];
  }

  lemma {:induction false} CarryAllKeeps(run: seq<Following>, s: Store, g: Reading, ps: map<Channel, Parcel>,
                                         order: seq<Channel>, now: int, n: nat)
    requires Parcels(s, g, ps) && CarriesAll(run, s, g, ps, order, now) && n <= |order| && Valid(s)
    ensures Valid(run[n].store) && Grows(s, run[n].store)
  {
    if n > 0 {
      CarryAllKeeps(run, s, g, ps, order, now, n - 1);
      var f, h, c, p := StepAt(run, s, g, ps, order, now, n - 1, n);
      CarryNextKeeps(f, h, s, g, c, p, now);
    }
  }

  /** One parcel carried: it has moved unless something is lost, and then every entity
      counts as incomplete. */
  lemma {:induction false} NextArrives(f: Following, s: Store, g: Reading, c: Channel, p: Parcel, now: int, agent: Agent, from: Channel)
    requires ParcelOf(s, g, p) && Reads(s, agent, from, g) && ValidNames(f.store.names) && c != from
    ensures var h := CarryNext(f, s, g, c, p, now);
      && (f.lost ==> h.lost)
      && (!h.lost ==> f.incomplete <= h.incomplete && ParcelMoved(s, h.store, g, c, p, h.incomplete))
      && ((f.lost ==> g.entities.Keys <= f.incomplete) ==> h.lost ==> g.entities.Keys <= h.incomplete)
  {
    var h := CarryNext(f, s, g, c, p, now);
    if !h.lost {
      ParcelArrives(f.store, s, g, c, p, now, agent, from);
      KeepsOthersSelf(h.store, agent, from);
      ParcelStaysMoved(s, h.store, h.store, g, c, p, CarryParcel(f.store, s, g, c, p, now).landed.incomplete,
                       h.incomplete, agent, from);
    }
  }

  lemma {:induction false} NextKeepsOthers(f: Following, s: Store, g: Reading, c: Channel, p: Parcel, now: int, agent: Agent, from: Channel)
    requires ParcelOf(s, g, p) && Valid(s) && Valid(f.store) && Grows(s, f.store)
    ensures KeepsOthers(f.store, CarryNext(f, s, g, c, p, now).store, agent, from)
  {
    CarryNextKeeps(f, CarryNext(f, s, g, c, p, now), s, g, c, p, now);
    GrowsKeepsOthers(f.store, CarryNext(f, s, g, c, p, now).store, agent, from);
  }

  /** The parcels of the first `n` channels have moved. */
  ghost predicate MovedUpTo(f: Following, s: Store, g: Reading, ps: map<Channel, Parcel>, order: seq<Channel>, n: nat)
    requires n <= |order| && forall c | c in order :: c in ps
  {
    n == 0 || (MovedUpTo(f, s, g, ps, order, n - 1) && ParcelMoved(s, f.store, g, order[n-1], ps[order[n-1]], f.incomplete))
  }

  /** What holds after carrying: all moved, or all incomplete. */
  ghost predicate AllMoved(f: Following, s: Store, g: Reading, ps: map<Channel, Parcel>, order: seq<Channel>, n: nat)
    requires n <= |order| && forall c | c in order :: c in ps
  {
    if f.lost then g.entities.Keys <= f.incomplete else MovedUpTo(f, s, g, ps, order, n)
  }

  lemma {:induction false} AllArrive(run: seq<Following>, s: Store, g: Reading, ps: map<Channel, Parcel>,
                                     order: seq<Channel>, now: int, n: nat, agent: Agent, from: Channel)
    requires Parcels(s, g, ps) && CarriesAll(run, s, g, ps, order, now) && n <= |order|
    requires Valid(s) && Reads(s, agent, from, g) && from !in order
    ensures AllMoved(run[n], s, g, ps, order, n)
  {
    if n > 0 {
      var i := n - 1;
      AllArrive(run, s, g, ps, order, now, i, agent, from);
      CarryAllKeeps(run, s, g, ps, order, now, i);
      var f, h, c, p := StepAt(run, s, g, ps, order, now, i, n);
      OneMoreArrives(f, h, s, g, ps, order, now, i, n, agent, from);
    }
  }

  lemma {:induction false} OneMoreArrives(f: Following, h: Following, s: Store, g: Reading, ps: map<Channel, Parcel>,
                                          order: seq<Channel>, now: int, i: nat, n: nat, agent: Agent, from: Channel)
    requires n == i + 1 && n <= |order| && from !in order && (forall c | c in order :: c in ps)
    requires Parcels(s, g, ps) && h == CarryNext(f, s, g, order[i], ps[order[i]], now)
    requires Valid(s) && Valid(f.store) && Grows(s, f.store) && Reads(s, agent, from, g)
    requires AllMoved(f, s, g, ps, order, i)
    ensures AllMoved(h, s, g, ps, order, n)
  {
    var c, p := order[i], ps[order[i]];
    NextArrives(f, s, g, c, p, now, agent, from);
    if !h.lost {
      NextKeepsOthers(f, s, g, c, p, now, agent, from);
      MovedSoFar(f, h, s, g, ps, order, i, agent, from);
    }
  }

  lemma {:induction false} MovedSoFar(f: Following, h: Following, s: Store, g: Reading, ps: map<Channel, Parcel>,
                                      order: seq<Channel>, n: nat, agent: Agent, from: Channel)
    requires n <= |order| && from !in order && forall c | c in order :: c in ps
    requires MovedUpTo(f, s, g, ps, order, n) && KeepsOthers(f.store, h.store, agent, from) && f.incomplete <= h.incomplete
    ensures MovedUpTo(h, s, g, ps, order, n)
  {
    if n > 0 {
      MovedSoFar(f, h, s, g, ps, order, n - 1, agent, from);
      ParcelStaysMoved(s, f.store, h.store, g, order[n-1], ps[order[n-1]], f.incomplete, h.incomplete, agent, from);
    }
  }

  lemma {:induction false} KeepsOthersSelf(x: Store, agent: Agent, from: Channel)
    ensures KeepsOthers(x, x, agent, from)
  {
  }

  // ---- taking what was carried out of the old channel -------------------------------------------

  function Cleared(s: Store, mentions: set<(nat, Ref)>, relations: set<Relation>): Store {
    s.(mentions := s.mentions - mentions, relations := s.relations - relations)
  }

  /** Nothing names an entity but relations that were copied. */
  predicate Unnamed(s: Store, e: nat, copied: set<Relation>) {
    && (forall k | k in s.mentions :: k.0 != e)
    && (forall r | r in s.relations && Touches(r, Thing(e)) :: r in copied)
  }

  /** The candidates below `n` deleted, lowest first, where nothing names them. */
  function Pruned(s: Store, n: nat, candidates: set<nat>, copied: set<Relation>): Store {
    if n == 0 then s
    else
      var t := Pruned(s, n - 1, candidates, copied);
      if n - 1 in candidates && Unnamed(t, n - 1, copied) then WithoutEntity(t, n - 1) else t
  }

  /** What deleting candidates takes: no mention, only copied relations, and the aliases of
      candidates alone. */
  ghost predicate Prunes(s: Store, t: Store, candidates: set<nat>, copied: set<Relation>) {
    && Valid(t) && t.mentions == s.mentions
    && (forall r | r in t.relations :: r in s.relations)
    && (forall r | r in s.relations && r !in copied :: r in t.relations)
    && (forall e | e in s.names.entities && e !in candidates :: EntityKept(s, t, e))
    && (forall e, m | (e, m) in s.names.aliases && e !in candidates :: (e, m) in t.names.aliases)
    && (candidates == {} ==> t == s)
  }

  lemma {:induction false} PruneTakesOne(s: Store, t: Store, e: nat, candidates: set<nat>, copied: set<Relation>)
    requires Prunes(s, t, candidates, copied) && e in candidates && Unnamed(t, e, copied)
    ensures Prunes(s, WithoutEntity(t, e), candidates, copied)
  {
    DeletingKeepsValid(t, e);
    assert WithoutEntity(t, e).mentions == t.mentions;
  }

  lemma {:induction false} PruneTakes(s: Store, n: nat, candidates: set<nat>, copied: set<Relation>)
    requires Valid(s)
    ensures Prunes(s, Pruned(s, n, candidates, copied), candidates, copied)
  {
    if n > 0 {
      PruneTakes(s, n - 1, candidates, copied);
      var t := Pruned(s, n - 1, candidates, copied);
      if n - 1 in candidates && Unnamed(t, n - 1, copied) {
        PruneTakesOne(s, t, n - 1, candidates, copied);
      }
    }
  }

  lemma {:induction false} ClearedIsValid(s: Store, mentions: set<(nat, Ref)>, relations: set<Relation>)
    requires Valid(s)
    ensures Valid(Cleared(s, mentions, relations))
  {
    var t := Cleared(s, mentions, relations);
    forall r | r in t.relations ensures RelationStands(t, r) {
      assert RelationStands(s, r);
    }
    forall e, ref | (e, ref) in t.mentions ensures MentionStands(t, e, ref) {
      assert MentionStands(s, e, ref);
    }
  }

  // ---- nothing is lost ------------------------------------------------------------------------------

  /** Everything that is to be carried is in the parcels, and nothing else. */
  ghost predicate Plans(ps: map<Channel, Parcel>, g: Reading, landing: map<Ref, Channel>) {
    && Packed(ps, g, landing)
    && (forall m | m in g.mentions :: MentionTaken(ps, landing, m))
    && (forall r | r in g.relations :: RelationTaken(ps, landing, r))
    && (forall c, r | c in ps && r in g.relations :: RelationCopied(ps, g, c, r))
    && Justified(ps, g, landing)
  }

  /** A parcel has exactly the entities that are to be carried to its channel. */
  lemma {:induction false} PlannedEntities(ps: map<Channel, Parcel>, g: Reading, landing: map<Ref, Channel>, e: nat, c: Channel)
    requires Plans(ps, g, landing)
    ensures c in ps && e in ps[c].entities <==> e in g.entities && GoesTo(g, landing, e, c)
  {
    if e in g.entities && GoesTo(g, landing, e, c) {
      if ref :| (e, ref) in g.mentions && ref in landing && landing[ref] == c {
        assert MentionTaken(ps, landing, (e, ref));
        assert MentionPacked(ps[c], g, (e, ref));
      } else {
        var r :| r in g.relations && LandingOf(r, landing) == Some(c) && Touches(r, Thing(e));
        assert RelationTaken(ps, landing, r);
        assert RelationPacked(ps[c], g, r);
      }
    }
  }

  /** And exactly the relations with no record behind them that are to be copied there. */
  lemma {:induction false} PlannedCopies(ps: map<Channel, Parcel>, g: Reading, landing: map<Ref, Channel>, r: Relation, c: Channel)
    requires Plans(ps, g, landing) && r in g.relations
    ensures c in ps && Copies(ps[c], g, r) <==> CopiesTo(g, landing, r, c)
    ensures CopiesTo(g, landing, r, c) ==> r in ps[c].relations
  {
    if r.subject.Thing? && r.target.Thing? {
      PlannedEntities(ps, g, landing, r.subject.entity, c);
      PlannedEntities(ps, g, landing, r.target.entity, c);
    }
    assert c in ps ==> RelationCopied(ps, g, c, r);
  }

  function GoneMentions(g: Reading, landing: map<Ref, Channel>): set<(nat, Ref)> {
    set m | m in g.mentions && m.1 in landing
  }

  function GoneRelations(g: Reading, landing: map<Ref, Channel>): set<Relation> {
    set r | r in g.relations && LandingOf(r, landing).Some?
  }

  function CopiedRelations(ps: map<Channel, Parcel>, g: Reading, landing: map<Ref, Channel>): set<Relation> {
    GoneRelations(g, landing) + set c, r | c in ps && r in g.relations && Copies(ps[c], g, r) :: r
  }

  function CarriedEntities(ps: map<Channel, Parcel>): set<nat> {
    set c, e | c in ps && e in ps[c].entities :: e
  }

  /** The store once the old channel has been cleared of what was carried. */
  function Settle(f: Following, g: Reading, landing: map<Ref, Channel>, ps: map<Channel, Parcel>, last: nat): Store {
    var cleared := Cleared(f.store, if f.lost then {} else GoneMentions(g, landing),
                           if f.lost then {} else GoneRelations(g, landing));
    Pruned(cleared, last + 1, CarriedEntities(ps) - f.incomplete, CopiedRelations(ps, g, landing))
  }

  ghost predicate MentionFollowed(s: Store, t: Store, m: (nat, Ref), landing: map<Ref, Channel>) {
    m.1 in landing && MentionMoved(s, t, m, landing[m.1])
  }

  /** A relation that follows a record has its image in that record's channel; one with no
      record behind it has an image in every channel it is to be copied to, and in some. */
  ghost predicate RelationFollowed(s: Store, t: Store, g: Reading, r: Relation, landing: map<Ref, Channel>) {
    match LandingOf(r, landing)
    case Some(c) => RelationMoved(s, t, g, r, c)
    case None =>
      && (exists c :: CopiesTo(g, landing, r, c))
      && (forall c | CopiesTo(g, landing, r, c) :: RelationMoved(s, t, g, r, c))
  }

  /** An alias has an image in every channel its entity was carried to, and in some. */
  ghost predicate AliasFollowed(s: Store, t: Store, g: Reading, e: nat, n: Norm, landing: map<Ref, Channel>) {
    && e in g.entities
    && (exists c :: GoesTo(g, landing, e, c))
    && (forall c | GoesTo(g, landing, e, c) :: AliasMoved(s, t, e, n, c))
  }

  /** Every mention, relation and alias is still there or has its image where its record, or
      its entity, went; and what is filed elsewhere is untouched. */
  ghost predicate NothingLost(s: Store, t: Store, g: Reading, landing: map<Ref, Channel>, agent: Agent, from: Channel) {
    && Valid(t) && KeepsOthers(s, t, agent, from)
    && (forall m | m in s.mentions :: m in t.mentions || MentionFollowed(s, t, m, landing))
    && (forall r | r in s.relations :: r in t.relations || RelationFollowed(s, t, g, r, landing))
    && (forall e, n | (e, n) in s.names.aliases :: (e, n) in t.names.aliases || AliasFollowed(s, t, g, e, n, landing))
  }

  lemma {:induction false} PlansAreParcels(s: Store, g: Reading, ps: map<Channel, Parcel>, landing: map<Ref, Channel>, agent: Agent, from: Channel)
    requires Reads(s, agent, from, g) && Packed(ps, g, landing)
    ensures Parcels(s, g, ps)
  {
    forall c | c in ps ensures ParcelOf(s, g, ps[c]) {
      forall i | 0 <= i < |ps[c].entities| ensures g.entities[ps[c].entities[i]].id == ps[c].entities[i] {
        assert Describes(s.names, ps[c].entities[i], g.entities[ps[c].entities[i]]);
      }
      forall m | m in ps[c].mentions ensures m in s.mentions && MentionPacked(ps[c], g, m) {
        assert MentionPacked(ps[c], g, m);
        assert (m.0, m.1) in g.mentions;
      }
      forall r | r in ps[c].relations ensures r in s.relations {
        assert RelationPacked(ps[c], g, r);
      }
    }
  }

  lemma {:induction false} OnlyWhatWasRead(s: Store, g: Reading, ps: map<Channel, Parcel>, landing: map<Ref, Channel>, agent: Agent, from: Channel)
    requires Reads(s, agent, from, g) && Packed(ps, g, landing)
    ensures CarriedEntities(ps) <= g.entities.Keys
    ensures forall m | m in GoneMentions(g, landing) :: m.0 in g.entities
    ensures forall r | r in CopiedRelations(ps, g, landing) :: Filed(r.scope, agent, from)
  {
    forall m | m in GoneMentions(g, landing) ensures m.0 in g.entities {
      assert (m.0, m.1) in g.mentions;
    }
  }

  lemma {:induction false} TakingKeepsOthers(x: Store, t: Store, mentions: set<(nat, Ref)>, relations: set<Relation>,
                                             candidates: set<nat>, copied: set<Relation>, agent: Agent, from: Channel)
    requires Prunes(Cleared(x, mentions, relations), t, candidates, copied)
    requires forall e | e in candidates && e in x.names.entities :: Filed(x.names.entities[e].scope, agent, from)
    requires forall m | m in mentions && m.0 in x.names.entities :: Filed(x.names.entities[m.0].scope, agent, from)
    requires forall r | r in relations + copied :: Filed(r.scope, agent, from)
    ensures KeepsOthers(x, t, agent, from)
  {
    var cleared := Cleared(x, mentions, relations);
    forall e | e in x.names.entities && !Filed(x.names.entities[e].scope, agent, from) ensures EntityKept(x, t, e) {
      assert EntityKept(cleared, t, e);
    }
    forall e, ref | (e, ref) in x.mentions && e in x.names.entities && !Filed(x.names.entities[e].scope, agent, from)
      ensures (e, ref) in t.mentions
    {
      assert (e, ref) in cleared.mentions;
    }
    forall r | r in x.relations && !Filed(r.scope, agent, from) ensures r in t.relations {
      assert r in cleared.relations;
    }
  }

  /** The last stretch: what was carried is cleared and pruned. */
  ghost predicate Settles(f: Following, s: Store, t: Store, g: Reading, landing: map<Ref, Channel>, ps: map<Channel, Parcel>,
                          agent: Agent, from: Channel) {
    && Prunes(Cleared(f.store, if f.lost then {} else GoneMentions(g, landing), if f.lost then {} else GoneRelations(g, landing)),
              t, CarriedEntities(ps) - f.incomplete, CopiedRelations(ps, g, landing))
    && KeepsOthers(s, f.store, agent, from) && KeepsOthers(f.store, t, agent, from)
  }

  lemma {:induction false} SettleSettles(f: Following, s: Store, g: Reading, landing: map<Ref, Channel>, ps: map<Channel, Parcel>,
                                         last: nat, agent: Agent, from: Channel)
    requires Reads(s, agent, from, g) && Packed(ps, g, landing) && Valid(f.store) && Grows(s, f.store)
    ensures Settles(f, s, Settle(f, g, landing, ps, last), g, landing, ps, agent, from)
  {
    var mentions, relations := if f.lost then {} else GoneMentions(g, landing), if f.lost then {} else GoneRelations(g, landing);
    ClearedIsValid(f.store, mentions, relations);
    PruneTakes(Cleared(f.store, mentions, relations), last + 1, CarriedEntities(ps) - f.incomplete, CopiedRelations(ps, g, landing));
    OnlyWhatWasRead(s, g, ps, landing, agent, from);
    GrowsKeepsOthers(s, f.store, agent, from);
    TakingKeepsOthers(f.store, Settle(f, g, landing, ps, last), mentions, relations,
                      CarriedEntities(ps) - f.incomplete, CopiedRelations(ps, g, landing), agent, from);
  }

  /** Every parcel has moved when nothing is lost, in whatever order the channels went. */
  ghost predicate ParcelsMoved(f: Following, s: Store, g: Reading, ps: map<Channel, Parcel>) {
    if f.lost then g.entities.Keys <= f.incomplete
    else forall c | c in ps :: ParcelMoved(s, f.store, g, c, ps[c], f.incomplete)
  }

  lemma {:induction false} MentionNotLost(f: Following, s: Store, t: Store, g: Reading, landing: map<Ref, Channel>,
                                          ps: map<Channel, Parcel>, m: (nat, Ref), agent: Agent, from: Channel)
    requires Valid(s) && Reads(s, agent, from, g) && Plans(ps, g, landing) && from !in landing.Values
    requires ParcelsMoved(f, s, g, ps) && Grows(s, f.store) && Settles(f, s, t, g, landing, ps, agent, from)
    requires m in s.mentions
    ensures m in t.mentions || MentionFollowed(s, t, m, landing)
  {
    assert (m.0, m.1) == m && MentionStands(s, m.0, m.1);
    if m !in t.mentions {
      assert !f.lost && m in GoneMentions(g, landing);
      assert MentionTaken(ps, landing, m);
      var c := landing[m.1];
      assert ParcelMoved(s, f.store, g, c, ps[c], f.incomplete);
      MentionStaysMoved(s, f.store, t, m, c, agent, from);
    }
  }

  /** A channel something is to go to is a re-filed record's. */
  lemma {:induction false} LandsSomewhere(g: Reading, landing: map<Ref, Channel>, e: nat, c: Channel)
    requires GoesTo(g, landing, e, c)
    ensures c in landing.Values
  {
    if r :| r in g.relations && LandingOf(r, landing) == Some(c) && Touches(r, Thing(e)) {
      LandingIsAChannel(r, landing);
    }
  }

  /** What is in a parcel when nothing is lost has its image there in the end. */
  lemma {:induction false} PackedHasMoved(f: Following, s: Store, t: Store, g: Reading, landing: map<Ref, Channel>,
                                          ps: map<Channel, Parcel>, r: Relation, c: Channel, agent: Agent, from: Channel)
    requires Plans(ps, g, landing) && ParcelsMoved(f, s, g, ps) && !f.lost && from !in landing.Values
    requires KeepsOthers(f.store, t, agent, from) && c in ps && r in ps[c].relations
    ensures RelationMoved(s, t, g, r, c)
  {
    assert ParcelMoved(s, f.store, g, c, ps[c], f.incomplete);
    RelationStaysMoved(s, f.store, t, g, r, c, agent, from);
  }

  /** Every copied relation has followed, whether or not the original was taken out. */
  lemma {:induction false} CopiedHasFollowed(f: Following, s: Store, t: Store, g: Reading, landing: map<Ref, Channel>,
                                             ps: map<Channel, Parcel>, r: Relation, agent: Agent, from: Channel)
    requires Plans(ps, g, landing) && ParcelsMoved(f, s, g, ps) && !f.lost && from !in landing.Values
    requires KeepsOthers(f.store, t, agent, from) && r in CopiedRelations(ps, g, landing)
    ensures RelationFollowed(s, t, g, r, landing)
  {
    if LandingOf(r, landing).Some? {
      assert RelationTaken(ps, landing, r);
      PackedHasMoved(f, s, t, g, landing, ps, r, LandingOf(r, landing).value, agent, from);
    } else {
      var d :| d in ps && Copies(ps[d], g, r);
      PlannedCopies(ps, g, landing, r, d);
      forall c | CopiesTo(g, landing, r, c) ensures RelationMoved(s, t, g, r, c) {
        PlannedCopies(ps, g, landing, r, c);
        PackedHasMoved(f, s, t, g, landing, ps, r, c, agent, from);
      }
    }
  }

  lemma {:induction false} RelationNotLost(f: Following, s: Store, t: Store, g: Reading, landing: map<Ref, Channel>,
                                           ps: map<Channel, Parcel>, r: Relation, agent: Agent, from: Channel)
    requires Plans(ps, g, landing) && from !in landing.Values && CarriedEntities(ps) <= g.entities.Keys
    requires ParcelsMoved(f, s, g, ps) && Grows(s, f.store) && Settles(f, s, t, g, landing, ps, agent, from)
    requires r in s.relations
    ensures r in t.relations || RelationFollowed(s, t, g, r, landing)
  {
    assert f.lost ==> CarriedEntities(ps) - f.incomplete == {};
    if r !in t.relations {
      assert !f.lost && r in CopiedRelations(ps, g, landing);
      CopiedHasFollowed(f, s, t, g, landing, ps, r, agent, from);
    }
  }

  /** Every alias of an entity that arrived whole has followed it everywhere. */
  lemma {:induction false} AliasHasFollowed(f: Following, s: Store, t: Store, g: Reading, landing: map<Ref, Channel>,
                                            ps: map<Channel, Parcel>, e: nat, n: Norm, agent: Agent, from: Channel)
    requires Plans(ps, g, landing) && ParcelsMoved(f, s, g, ps) && !f.lost && from !in landing.Values
    requires KeepsOthers(f.store, t, agent, from)
    requires (e, n) in s.names.aliases && e in CarriedEntities(ps) - f.incomplete
    ensures AliasFollowed(s, t, g, e, n, landing)
  {
    var d :| d in ps && e in ps[d].entities;
    PlannedEntities(ps, g, landing, e, d);
    forall c | GoesTo(g, landing, e, c) ensures AliasMoved(s, t, e, n, c) {
      PlannedEntities(ps, g, landing, e, c);
      LandsSomewhere(g, landing, e, c);
      assert ParcelMoved(s, f.store, g, c, ps[c], f.incomplete);
      AliasStaysMoved(s, f.store, t, e, n, c, agent, from);
    }
  }

  lemma {:induction false} AliasNotLost(f: Following, s: Store, t: Store, g: Reading, landing: map<Ref, Channel>,
                                        ps: map<Channel, Parcel>, e: nat, n: Norm, agent: Agent, from: Channel)
    requires Plans(ps, g, landing) && from !in landing.Values && CarriedEntities(ps) <= g.entities.Keys
    requires ParcelsMoved(f, s, g, ps) && Grows(s, f.store) && Settles(f, s, t, g, landing, ps, agent, from)
    requires (e, n) in s.names.aliases
    ensures (e, n) in t.names.aliases || AliasFollowed(s, t, g, e, n, landing)
  {
    if (e, n) !in t.names.aliases {
      assert e in CarriedEntities(ps) - f.incomplete && !f.lost;
      AliasHasFollowed(f, s, t, g, landing, ps, e, n, agent, from);
    }
  }

  /** What the settled store of a pass keeps. */
  lemma {:induction false} SettledLosesNothing(f: Following, s: Store, t: Store, g: Reading, landing: map<Ref, Channel>,
                                               ps: map<Channel, Parcel>, agent: Agent, from: Channel)
    requires Valid(s) && Reads(s, agent, from, g) && from !in landing.Values && Plans(ps, g, landing) && Parcels(s, g, ps)
    requires CarriedEntities(ps) <= g.entities.Keys && ParcelsMoved(f, s, g, ps) && Grows(s, f.store)
    requires Settles(f, s, t, g, landing, ps, agent, from) && Valid(t)
    ensures NothingLost(s, t, g, landing, agent, from)
  {
    KeepsOthersTwice(s, f.store, t, agent, from);
    forall m | m in s.mentions ensures m in t.mentions || MentionFollowed(s, t, m, landing) {
      MentionNotLost(f, s, t, g, landing, ps, m, agent, from);
    }
    forall r | r in s.relations ensures r in t.relations || RelationFollowed(s, t, g, r, landing) {
      RelationNotLost(f, s, t, g, landing, ps, r, agent, from);
    }
    forall e, n | (e, n) in s.names.aliases
      ensures (e, n) in t.names.aliases || AliasFollowed(s, t, g, e, n, landing)
    {
      AliasNotLost(f, s, t, g, landing, ps, e, n, agent, from);
    }
  }

  lemma {:induction false} CarriedHaveMoved(run: seq<Following>, s: Store, g: Reading, ps: map<Channel, Parcel>,
                                            order: seq<Channel>, now: int, agent: Agent, from: Channel)
    requires Parcels(s, g, ps) && CarriesAll(run, s, g, ps, order, now) && (forall c | c in ps :: c in order)
    requires Valid(s) && Reads(s, agent, from, g) && from !in order
    ensures ParcelsMoved(run[|order|], s, g, ps)
  {
    var f := run[|order|];
    AllArrive(run, s, g, ps, order, now, |order|, agent, from);
    if !f.lost {
      EveryParcel(f, s, g, ps, order, |order|);
    }
  }

  /** No declaration is lost: for any store, any re-filed records and any order of the
      channels, in every pass that completes. */
  lemma {:induction false} FollowingLosesNothing(run: seq<Following>, s: Store, g: Reading, landing: map<Ref, Channel>,
                                                 ps: map<Channel, Parcel>, order: seq<Channel>, now: int, agent: Agent, from: Channel)
    requires Valid(s) && Reads(s, agent, from, g) && from !in landing.Values
    requires Plans(ps, g, landing) && Parcels(s, g, ps)
    requires CarriesAll(run, s, g, ps, order, now) && forall c | c in ps :: c in order
    ensures NothingLost(s, Settle(run[|order|], g, landing, ps, s.names.last), g, landing, agent, from)
  {
    var f := run[|order|];
    var t := Settle(f, g, landing, ps, s.names.last);
    CarryAllKeeps(run, s, g, ps, order, now, |order|);
    CarriedHaveMoved(run, s, g, ps, order, now, agent, from);
    SettleSettles(f, s, g, landing, ps, s.names.last, agent, from);
    OnlyWhatWasRead(s, g, ps, landing, agent, from);
    SettledLosesNothing(f, s, t, g, landing, ps, agent, from);
  }

  lemma {:induction false} EveryParcel(f: Following, s: Store, g: Reading, ps: map<Channel, Parcel>, order: seq<Channel>, n: nat)
    requires n <= |order| && (forall c | c in order :: c in ps) && MovedUpTo(f, s, g, ps, order, n)
    ensures forall j | 0 <= j < n :: ParcelMoved(s, f.store, g, order[j], ps[order[j]], f.incomplete)
  {
    if n > 0 {
      EveryParcel(f, s, g, ps, order, n - 1);
    }
  }

  /** An entity is deleted only from the old channel, and only when every mention of it and
      every relation that names it has an image. */
  lemma {:induction false} DeletedOnlyWhenCopied(s: Store, t: Store, g: Reading, landing: map<Ref, Channel>, agent: Agent, from: Channel, e: nat)
    requires Valid(s) && NothingLost(s, t, g, landing, agent, from)
    requires e in s.names.entities && e !in t.names.entities
    ensures Filed(s.names.entities[e].scope, agent, from)
    ensures forall m | m in s.mentions && m.0 == e :: MentionFollowed(s, t, m, landing)
    ensures forall r | r in s.relations && Touches(r, Thing(e)) :: RelationFollowed(s, t, g, r, landing)
  {
    assert !Filed(s.names.entities[e].scope, agent, from) ==> EntityKept(s, t, e);
    forall m | m in s.mentions && m.0 == e ensures MentionFollowed(s, t, m, landing) {
      assert (m.0, m.1) == m;
      assert m in t.mentions ==> MentionStands(t, m.0, m.1);
    }
    forall r | r in s.relations && Touches(r, Thing(e)) ensures RelationFollowed(s, t, g, r, landing) {
      assert r in t.relations ==> RelationStands(t, r);
    }
  }

  /** And everything follows: when nothing was dropped, each mention of a re-filed record and
      each relation that follows one has left the old channel for that record's, each relation
      with no record behind it has its copy in every channel it is to be copied to, and each
      entity that arrived whole has its aliases in every channel it went to. */
  lemma {:induction false} EverythingFollows(run: seq<Following>, s: Store, g: Reading, landing: map<Ref, Channel>,
                                             ps: map<Channel, Parcel>, order: seq<Channel>, now: int, agent: Agent, from: Channel)
    requires Valid(s) && Reads(s, agent, from, g) && from !in landing.Values
    requires Plans(ps, g, landing) && Parcels(s, g, ps)
    requires CarriesAll(run, s, g, ps, order, now) && forall c | c in ps :: c in order
    requires !run[|order|].lost
    ensures var f := run[|order|];
      var t := Settle(f, g, landing, ps, s.names.last);
      && (forall m | m in GoneMentions(g, landing) :: m !in t.mentions && MentionFollowed(s, t, m, landing))
      && (forall r | r in GoneRelations(g, landing) :: r !in t.relations && RelationFollowed(s, t, g, r, landing))
      && (forall r, c | CopiesTo(g, landing, r, c) :: RelationFollowed(s, t, g, r, landing))
      && (forall e, n, c | GoesTo(g, landing, e, c) && e in g.entities && e !in f.incomplete && (e, n) in s.names.aliases ::
            AliasFollowed(s, t, g, e, n, landing))
  {
    var f := run[|order|];
    var t := Settle(f, g, landing, ps, s.names.last);
    FollowingLosesNothing(run, s, g, landing, ps, order, now, agent, from);
    CarryAllKeeps(run, s, g, ps, order, now, |order|);
    SettleSettles(f, s, g, landing, ps, s.names.last, agent, from);
    AllArrive(run, s, g, ps, order, now, |order|, agent, from);
    EveryParcel(f, s, g, ps, order, |order|);
    forall r, c | CopiesTo(g, landing, r, c) ensures RelationFollowed(s, t, g, r, landing) {
      PlannedCopies(ps, g, landing, r, c);
      CopiedHasFollowed(f, s, t, g, landing, ps, r, agent, from);
    }
    forall e, n, c | GoesTo(g, landing, e, c) && e in g.entities && e !in f.incomplete && (e, n) in s.names.aliases
      ensures AliasFollowed(s, t, g, e, n, landing)
    {
      PlannedEntities(ps, g, landing, e, c);
      AliasHasFollowed(f, s, t, g, landing, ps, e, n, agent, from);
    }
  }

  // ---- the code -------------------------------------------------------------------------------------

  function Planned(g: Reading, landing: map<Ref, Channel>): Result<map<Channel, Parcel>> {
    match RelationsTaken(g, landing, |g.relations|)
    case Refused => Refused
    case Ok(ps) => Ok(RelationsCopied(ps, g, |g.relations|))
  }

  lemma {:induction false} MentionsPlanned(g: Reading, landing: map<Ref, Channel>, qs: map<Channel, Parcel>)
    requires Fills(MentionsTaken(g, landing, |g.mentions|), qs) && forall m | m in g.mentions :: m.0 in g.entities
    ensures forall m | m in g.mentions :: MentionTaken(qs, landing, m)
  {
    MentionsFill(g, landing, |g.mentions|);
    forall m | m in g.mentions ensures MentionTaken(qs, landing, m) {
      var i :| 0 <= i < |g.mentions| && g.mentions[i] == m;
    }
  }

  lemma {:induction false} RelationsPlanned(g: Reading, landing: map<Ref, Channel>, ps: map<Channel, Parcel>, qs: map<Channel, Parcel>)
    requires forall m | m in g.mentions :: m.0 in g.entities
    requires RelationsTaken(g, landing, |g.relations|) == Ok(ps) && qs == RelationsCopied(ps, g, |g.relations|)
    ensures forall r | r in g.relations :: RelationTaken(qs, landing, r)
    ensures forall c, r | c in qs && r in g.relations :: RelationCopied(qs, g, c, r)
  {
    RelationsFill(g, landing, |g.relations|);
    CopiesFill(ps, g, landing, |g.relations|);
    SameChannels(ps, g, |g.relations|);
    forall r | r in g.relations ensures RelationTaken(qs, landing, r) {
      var i :| 0 <= i < |g.relations| && g.relations[i] == r;
      assert RelationTaken(ps, landing, r);
    }
    forall c, r | c in qs && r in g.relations ensures RelationCopied(qs, g, c, r) {
      var i :| 0 <= i < |g.relations| && g.relations[i] == r;
      AllCopied(ps, g, |g.relations|, c, i);
    }
  }

  lemma {:induction false} PlannedPlans(g: Reading, landing: map<Ref, Channel>)
    requires Planned(g, landing).Ok? && forall m | m in g.mentions :: m.0 in g.entities
    ensures Plans(Planned(g, landing).value, g, landing)
  {
    var ps, qs := RelationsTaken(g, landing, |g.relations|).value, Planned(g, landing).value;
    MentionsFill(g, landing, |g.mentions|);
    RelationsFill(g, landing, |g.relations|);
    CopiesFill(ps, g, landing, |g.relations|);
    FillsTwice(MentionsTaken(g, landing, |g.mentions|), ps, qs);
    RelationsAreJustified(g, landing, |g.relations|);
    SameChannels(ps, g, |g.relations|);
    MentionsPlanned(g, landing, qs);
    RelationsPlanned(g, landing, ps, qs);
  }

  method PlanMoves(g: Reading, landing: map<Ref, Channel>) returns (plan: Result<map<Channel, Parcel>>)
    ensures plan == Planned(g, landing)
    ensures plan.Ok? <==> forall i | 0 <= i < |g.relations| :: HasParcel(g, landing, i)
  {
    CompletesExactlyWhen(g, landing, |g.relations|);
    var ps: map<Channel, Parcel> := map[];
    var i := 0;
    while i < |g.mentions|
      invariant 0 <= i <= |g.mentions| && ps == MentionsTaken(g, landing, i)
    {
      ps := TakeMention(ps, g, landing, g.mentions[i]);
      i := i + 1;
    }
    i := 0;
    while i < |g.relations|
      invariant 0 <= i <= |g.relations| && RelationsTaken(g, landing, i) == Ok(ps)
    {
      CompletesExactlyWhen(g, landing, i + 1);
      var taken := TakeRelation(ps, g, landing, g.relations[i]);
      if taken.Refused? {
        StopsForGood(g, landing, i + 1, |g.relations|);
        return Refused;
      }
      ps := taken.value;
      i := i + 1;
    }
    ghost var taken := ps;
    i := 0;
    while i < |g.relations|
      invariant 0 <= i <= |g.relations| && ps == RelationsCopied(taken, g, i)
    {
      ps := CopyRelation(ps, g, g.relations[i]);
      i := i + 1;
    }
    plan := Ok(ps);
  }

  lemma {:induction false} StopsForGood(g: Reading, landing: map<Ref, Channel>, m: nat, n: nat)
    requires m <= n <= |g.relations| && RelationsTaken(g, landing, m).Refused?
    ensures RelationsTaken(g, landing, n).Refused?
    decreases n
  {
    if m < n {
      StopsForGood(g, landing, m, n - 1);
    }
  }

  /** What a completed pass did: the plan, the carries in their order, and the settling. */
  ghost predicate Passes(s: Store, t: Store, g: Reading, landing: map<Ref, Channel>, now: int,
                         run: seq<Following>, order: seq<Channel>) {
    && Planned(g, landing).Ok?
    && var ps := Planned(g, landing).value;
      && Parcels(s, g, ps) && CarriesAll(run, s, g, ps, order, now) && (forall c | c in ps :: c in order)
      && t == Settle(run[|order|], g, landing, ps, s.names.last)
  }

  /** Carry every parcel, in any order of the channels. */
  method CarryParcels(db: GraphDb, g: Reading, ps: map<Channel, Parcel>, now: int)
      returns (f: Following, ghost run: seq<Following>, ghost order: seq<Channel>)
    requires Valid(db.Now()) && Parcels(db.Now(), g, ps)
    modifies db
    ensures CarriesAll(run, old(db.Now()), g, ps, order, now) && (forall c | c in ps :: c in order)
    ensures f == run[|order|] && db.Now() == f.store && Valid(f.store)
  {
    var s := db.Now();
    f := Following(s, false, {});
    run, order := [f], [];
    var todo := ps.Keys;
    while todo != {}
      invariant todo <= ps.Keys && CarriesAll(run, s, g, ps, order, now)
      invariant (forall c | c in ps :: c in todo || c in order)
      invariant f == run[|order|] && db.Now() == f.store
      decreases todo
    {
      CarryAllKeeps(run, s, g, ps, order, now, |order|);
      var c :| c in todo;
      f := CarryOne(db, f, s, g, c, ps[c], now);
      NextCarried(run, s, g, ps, order, now, c, f);
      run, order, todo := run + [f], order + [c], todo - {c};
    }
    CarryAllKeeps(run, s, g, ps, order, now, |order|);
  }

  lemma {:induction false} NextCarried(run: seq<Following>, s: Store, g: Reading, ps: map<Channel, Parcel>,
                                       order: seq<Channel>, now: int, c: Channel, f: Following)
    requires Parcels(s, g, ps) && CarriesAll(run, s, g, ps, order, now) && c in ps
    requires f == CarryNext(run[|order|], s, g, c, ps[c], now)
    ensures CarriesAll(run + [f], s, g, ps, order + [c], now)
  {
    var more, channels := run + [f], order + [c];
    forall i | 0 <= i < |channels| ensures CarriesAt(more, s, g, ps, channels, now, i) {
      if i < |order| {
        assert CarriesAt(run, s, g, ps, order, now, i);
        SameStep(run, more, s, g, ps, order, channels, now, i, i + 1);
      }
    }
  }

  lemma {:induction false} SameStep(run: seq<Following>, more: seq<Following>, s: Store, g: Reading, ps: map<Channel, Parcel>,
                                    order: seq<Channel>, channels: seq<Channel>, now: int, i: nat, next: nat)
    requires i < |order| < |run| && i < |channels| < |more| && next == i + 1 && Parcels(s, g, ps) && order[i] in ps
    requires channels[i] == order[i] && more[i] == run[i] && more[next] == run[next]
    requires CarriesAt(run, s, g, ps, order, now, i)
    ensures CarriesAt(more, s, g, ps, channels, now, i)
  {
  }

  method CarryOne(db: GraphDb, f: Following, s: Store, g: Reading, c: Channel, p: Parcel, now: int) returns (h: Following)
    requires ValidNames(db.Now().names) && f.store == db.Now() && ParcelOf(s, g, p)
    modifies db
    ensures h == CarryNext(f, s, g, c, p, now) && db.Now() == h.store
  {
    var done := CarryGraph(db, BundleOf(s, g, c, p), AsIs(now), InPlace(p));
    if done.dropped > 0 {
      h := Following(done.store, true, g.entities.Keys + done.landed.incomplete);
    } else {
      h := Following(done.store, f.lost, f.incomplete + done.landed.incomplete);
    }
  }

  /** Delete the candidates nothing names any more, lowest id first. */
  method Prune(db: GraphDb, last: nat, candidates: set<nat>, copied: set<Relation>)
    modifies db
    ensures db.Now() == Pruned(old(db.Now()), last + 1, candidates, copied)
  {
    var e := 0;
    while e <= last
      invariant 0 <= e <= last + 1
      invariant db.Now() == Pruned(old(db.Now()), e, candidates, copied)
    {
      if e in candidates && Unnamed(db.Now(), e, copied) {
        db.DeleteEntity(e);
      }
      e := e + 1;
    }
  }

  method TakeOut(db: GraphDb, f: Following, g: Reading, landing: map<Ref, Channel>, ps: map<Channel, Parcel>, last: nat)
    requires db.Now() == f.store
    modifies db
    ensures db.Now() == Settle(f, g, landing, ps, last)
  {
    if !f.lost {
      db.mentions := db.mentions - GoneMentions(g, landing);
      db.relations := db.relations - GoneRelations(g, landing);
    }
    assert db.Now() == Cleared(f.store, if f.lost then {} else GoneMentions(g, landing),
                               if f.lost then {} else GoneRelations(g, landing));
    Prune(db, last, CarriedEntities(ps) - f.incomplete, CopiedRelations(ps, g, landing));
  }

  lemma {:induction false} PlannedHolds(s: Store, g: Reading, landing: map<Ref, Channel>, agent: Agent, from: Channel)
    requires Reads(s, agent, from, g) && Planned(g, landing).Ok?
    ensures Plans(Planned(g, landing).value, g, landing) && Parcels(s, g, Planned(g, landing).value)
  {
    forall m | m in g.mentions ensures m.0 in g.entities {
      assert (m.0, m.1) == m;
    }
    PlannedPlans(g, landing);
    PlansAreParcels(s, g, Planned(g, landing).value, landing, agent, from);
  }

  /** A completed pass loses nothing. */
  lemma {:induction false} PassLosesNothing(s: Store, t: Store, g: Reading, landing: map<Ref, Channel>, now: int,
                                            run: seq<Following>, order: seq<Channel>, agent: Agent, from: Channel)
    requires Valid(s) && Reads(s, agent, from, g) && from !in landing.Values
    requires Passes(s, t, g, landing, now, run, order)
    ensures NothingLost(s, t, g, landing, agent, from)
  {
    PlannedHolds(s, g, landing, agent, from);
    FollowingLosesNothing(run, s, g, landing, Planned(g, landing).value, order, now, agent, from);
  }

  /** Take one agent's declarations to their records' new channels. A missing key stops the
      pass before anything is written. */
  method FollowAgent(db: GraphDb, g: Reading, agent: Agent, landing: map<Ref, Channel>, from: Channel, now: int)
      returns (ok: bool, ghost run: seq<Following>, ghost order: seq<Channel>)
    requires Valid(db.Now()) && Reads(db.Now(), agent, from, g) && from !in landing.Values
    modifies db
    ensures ok <==> forall i | 0 <= i < |g.relations| :: HasParcel(g, landing, i)
    ensures !ok ==> db.Now() == old(db.Now())
    ensures ok ==> Passes(old(db.Now()), db.Now(), g, landing, now, run, order)
  {
    var last := db.last;
    run, order := [], [];
    var plan := PlanMoves(g, landing);
    if plan.Refused? {
      return false, run, order;
    }
    PlannedHolds(db.Now(), g, landing, agent, from);
    var f;
    f, run, order := CarryParcels(db, g, plan.value, now);
    TakeOut(db, f, g, landing, plan.value, last);
    ok := true;
  }
}
