/** Which aliases a pass of `follow_rechannelled` could not take along
    (cpersona/associations.py:785-806): an entity it reports incomplete has lost one, in some
    channel, to an entity its image's readers see. */
module Refusals {
  import opened Common
  import opened Graph
  import opened Carry
  import opened Rechannel
  import opened Follow
  import opened Undropped

  /** An entity's alias is not its image's, because nothing is left of it or something else the
      image's readers see has it. */
  ghost predicate AliasRefused(s: Store, t: Store, e: nat, n: Norm, c: Channel) {
    exists h: nat :: ImageOf(s, t, e, h, c) && Declines(t.names, h, n)
  }

  // ---- why an entity is incomplete ---------------------------------------------------------------

  lemma {:induction false} SomeRefused(x: Names, e: nat, aliases: seq<Option<Term>>, n: nat)
    requires n <= |aliases| && e in x.entities && ValidNames(x)
    ensures var a := AliasesAttached(x, e, aliases, n, |aliases|);
      a.dropped > 0 ==> exists i :: 0 <= i < n && RefusedAt(a.names, e, aliases[i])
  {
    if n > 0 {
      var before := AliasesAttached(x, e, aliases, n - 1, |aliases|);
      SomeRefused(x, e, aliases, n - 1);
      AliasesKeep(x, e, aliases, n - 1, |aliases|);
      AliasKeeps(x, e, aliases, n, |aliases|);
      var a := AliasesAttached(x, e, aliases, n, |aliases|);
      if before.dropped > 0 {
        var i :| 0 <= i < n - 1 && RefusedAt(before.names, e, aliases[i]);
        assert RefusedAt(a.names, e, aliases[i]);
      } else if a.dropped > 0 {
        assert RefusedAt(a.names, e, aliases[n-1]);
      }
    }
  }

  predicate RefusedAt(x: Names, e: nat, alias: Option<Term>) {
    e in x.entities && (alias.None? || Declines(x, e, alias.value.normalized))
  }

  /** An entity reported incomplete had an alias refused where it landed. */
  ghost predicate Explained(l: Landed, rec: EntityRecord) {
    rec.id in l.at && exists i :: 0 <= i < |rec.aliases| && RefusedAt(l.names, l.at[rec.id], rec.aliases[i])
  }

  lemma {:induction false} LandExplains(l: Landed, e: EntityRecord, way: Way)
    requires ValidNames(l.names) && Usable(way, e)
    ensures var r := Land(l, e, way); r.incomplete == l.incomplete || (r.incomplete == l.incomplete + {e.id} && Explained(r, e))
  {
    var p := EntityPlaced(l.names, e, way);
    RegisterExtends(l.names, ScopeHere(way, e), e.name.value, Stamped(e.declaredBy.value, e.at, way.now), true);
    SomeRefused(p.names, p.entity, e.aliases, |e.aliases|);
  }

  lemma {:induction false} StaysExplained(l: Landed, rec: EntityRecord, next: EntityRecord, way: Way)
    requires ValidNames(l.names) && Explained(l, rec) && next.id != rec.id
    ensures Explained(Land(l, next, way), rec)
  {
    LandKeeps(l, next, way);
    var i :| 0 <= i < |rec.aliases| && RefusedAt(l.names, l.at[rec.id], rec.aliases[i]);
    assert RefusedAt(Land(l, next, way).names, l.at[rec.id], rec.aliases[i]);
  }

  ghost predicate ExplainedBy(l: Landed, es: seq<EntityRecord>, n: nat, id: nat, i: nat) {
    i < n <= |es| && es[i].id == id && Explained(l, es[i])
  }

  ghost predicate IncompleteExplained(l: Landed, es: seq<EntityRecord>, n: nat) {
    forall id | id in l.incomplete :: exists i :: ExplainedBy(l, es, n, id, i)
  }

  lemma {:induction false} OneMoreExplained(before: Landed, l: Landed, es: seq<EntityRecord>, j: nat, n: nat, rec: EntityRecord)
    requires n == j + 1 && n <= |es| && rec == es[j] && IncompleteExplained(before, es, j)
    requires forall i | 0 <= i < j && Explained(before, es[i]) :: Explained(l, es[i])
    requires l.incomplete == before.incomplete || (l.incomplete == before.incomplete + {rec.id} && Explained(l, rec))
    ensures IncompleteExplained(l, es, n)
  {
    forall id | id in l.incomplete ensures exists i :: ExplainedBy(l, es, n, id, i) {
      if id in before.incomplete {
        var i :| ExplainedBy(before, es, j, id, i);
        assert ExplainedBy(l, es, n, id, i);
      } else {
        assert ExplainedBy(l, es, n, id, j);
      }
    }
  }

  lemma {:induction false} StayExplained(l: Landed, es: seq<EntityRecord>, j: nat, rec: EntityRecord, way: Way)
    requires j <= |es| && ValidNames(l.names) && forall i | 0 <= i < j :: es[i].id != rec.id
    ensures forall i | 0 <= i < j && Explained(l, es[i]) :: Explained(Land(l, rec, way), es[i])
  {
    forall i | 0 <= i < j && Explained(l, es[i]) ensures Explained(Land(l, rec, way), es[i]) {
      StaysExplained(l, es[i], rec, way);
    }
  }

  lemma {:induction false} NextExplained(l: Landed, next: Landed, es: seq<EntityRecord>, j: nat, n: nat, rec: EntityRecord, way: Way)
    requires n == j + 1 && n <= |es| && rec == es[j] && IncompleteExplained(l, es, j) && next == Land(l, rec, way)
    requires ValidNames(l.names) && Usable(way, rec) && forall i | 0 <= i < j :: es[i].id != rec.id
    ensures IncompleteExplained(next, es, n)
  {
    StayExplained(l, es, j, rec, way);
    LandExplains(l, rec, way);
    OneMoreExplained(l, next, es, j, n, rec);
  }

  lemma {:induction false} AllExplained(l: Landed, es: seq<EntityRecord>, n: nat, way: Way)
    requires n <= |es| && ValidNames(l.names) && l.incomplete == {} && forall i | 0 <= i < |es| :: Usable(way, es[i])
    requires forall a, b | 0 <= a < b < |es| :: es[a].id != es[b].id
    ensures IncompleteExplained(LandAll(l, es, n, way), es, n)
  {
    if n > 0 {
      var j := n - 1;
      AllExplained(l, es, j, way);
      LandAllKeeps(l, es, j, way);
      var before, next := LandStep(l, es, j, n, way);
      NextExplained(before, next, es, j, n, es[j], way);
    }
  }

  lemma {:induction false} LandStep(l: Landed, es: seq<EntityRecord>, j: nat, n: nat, way: Way) returns (before: Landed, next: Landed)
    requires n == j + 1 && n <= |es|
    ensures before == LandAll(l, es, j, way) && next == LandAll(l, es, n, way) && next == Land(before, es[j], way)
  {
    before, next := LandAll(l, es, j, way), LandAll(l, es, n, way);
  }

  // ---- one parcel's entities -----------------------------------------------------------------

  /** An entity is in a channel, with each alias attached there or refused. */
  ghost predicate Tried(s: Store, x: Store, e: nat, c: Channel) {
    exists h: nat :: ImageOf(s, x, e, h, c) && AllSettled(s, x, e, h)
  }

  ghost predicate AllSettled(s: Store, x: Store, e: nat, h: nat) {
    forall n | (e, n) in s.names.aliases :: Settled(x.names, h, n)
  }

  /** An alias of an entity was refused in a channel. */
  ghost predicate LostOne(s: Store, x: Store, e: nat, c: Channel) {
    exists n :: (e, n) in s.names.aliases && AliasRefused(s, x, e, n, c)
  }

  lemma {:induction false} TriedStays(s: Store, x: Store, y: Store, e: nat, c: Channel)
    requires Extends(x.names, y.names)
    ensures Tried(s, x, e, c) ==> Tried(s, y, e, c)
    ensures LostOne(s, x, e, c) ==> LostOne(s, y, e, c)
  {
    if Tried(s, x, e, c) {
      var h: nat :| ImageOf(s, x, e, h, c) && AllSettled(s, x, e, h);
      forall n | (e, n) in s.names.aliases ensures Settled(y.names, h, n) {
        SettledStays(x.names, y.names, h, n);
      }
      assert ImageOf(s, y, e, h, c);
    }
    if LostOne(s, x, e, c) {
      var n :| (e, n) in s.names.aliases && AliasRefused(s, x, e, n, c);
      var h: nat :| ImageOf(s, x, e, h, c) && Declines(x.names, h, n);
      assert ImageOf(s, y, e, h, c) && Declines(y.names, h, n);
      assert AliasRefused(s, y, e, n, c);
    }
  }

  /** Where one entity of a parcel lands its aliases are settled. */
  lemma {:induction false} EntityTried(t: Store, s: Store, g: Reading, c: Channel, p: Parcel, now: int, agent: Agent, from: Channel, e: nat)
    requires ParcelOf(s, g, p) && Reads(s, agent, from, g) && e in p.entities
    requires ValidNames(t.names) && CarryParcel(t, s, g, c, p, now).dropped == 0
    ensures Tried(s, CarryParcel(t, s, g, c, p, now).store, e, c)
  {
    var done := CarryParcel(t, s, g, c, p, now);
    var i :| 0 <= i < |p.entities| && p.entities[i] == e;
    ParcelLands(t, s, g, c, p, now, i);
    assert done.store.names == done.landed.names by {
      CarryArrives(t, BundleOf(s, g, c, p), AsIs(now), InPlace(p));
    }
    var h := done.landed.at[e];
    LandedIsImage(s, done.store, g, c, e, h, now, agent, from);
    assert Describes(s.names, e, g.entities[e]);
    forall n | (e, n) in s.names.aliases ensures Settled(done.store.names, h, n) {
      var rec := Refiled(g.entities[e], c);
      var j :| 0 <= j < |rec.aliases| && rec.aliases[j] == Some(Term(s.names.aliases[(e, n)], n));
    }
    assert AllSettled(s, done.store, e, h);
  }

  lemma {:induction false} AllAreUsable(s: Store, g: Reading, c: Channel, p: Parcel, now: int, agent: Agent, from: Channel)
    requires ParcelOf(s, g, p) && Reads(s, agent, from, g) && agent != NoAgent
    ensures forall j | 0 <= j < |BundleOf(s, g, c, p).entities| :: Usable(AsIs(now), BundleOf(s, g, c, p).entities[j])
  {
    forall j: nat | j < |BundleOf(s, g, c, p).entities| ensures Usable(AsIs(now), BundleOf(s, g, c, p).entities[j]) {
      ParcelUsable(s, g, c, p, now, agent, from, j);
    }
  }

  lemma {:induction false} ParcelExplained(t: Store, s: Store, g: Reading, c: Channel, p: Parcel, now: int, agent: Agent, from: Channel, e: nat)
      returns (i: nat)
    requires ParcelOf(s, g, p) && Reads(s, agent, from, g) && agent != NoAgent && ValidNames(t.names)
    requires e in LandedOf(t, s, g, c, p, now).incomplete
    ensures i < |p.entities| && p.entities[i] == e
    ensures Explained(LandedOf(t, s, g, c, p, now), Refiled(g.entities[e], c))
  {
    var es, l := BundleOf(s, g, c, p).entities, LandedOf(t, s, g, c, p, now);
    BundleIsKeyed(s, g, c, p);
    AllAreUsable(s, g, c, p, now, agent, from);
    AllExplained(Start(t, InPlace(p)), es, |p.entities|, AsIs(now));
    i :| ExplainedBy(l, es, |p.entities|, e, i);
  }

  /** What a parcel reports incomplete lost an alias. */
  lemma {:induction false} IncompleteLost(t: Store, s: Store, g: Reading, c: Channel, p: Parcel, now: int, agent: Agent, from: Channel, e: nat)
    requires ParcelOf(s, g, p) && Reads(s, agent, from, g) && agent != NoAgent && ValidNames(t.names)
    requires CarryParcel(t, s, g, c, p, now).dropped == 0 && e in CarryParcel(t, s, g, c, p, now).landed.incomplete
    ensures e in p.entities && LostOne(s, CarryParcel(t, s, g, c, p, now).store, e, c)
  {
    var done := CarryParcel(t, s, g, c, p, now);
    var i := ParcelExplained(t, s, g, c, p, now, agent, from, e);
    assert done.store.names == done.landed.names by {
      CarryArrives(t, BundleOf(s, g, c, p), AsIs(now), InPlace(p));
    }
    EntityArrives(t, s, g, c, p, now, e, agent, from);
    RefusedIsLost(s, done.store, g, c, e, Refiled(g.entities[e], c), done.landed.at[e]);
  }

  lemma {:induction false} RefusedIsLost(s: Store, x: Store, g: Reading, c: Channel, e: nat, rec: EntityRecord, h: nat)
    requires e in s.names.entities && e in g.entities && Describes(s.names, e, g.entities[e]) && rec.aliases == g.entities[e].aliases
    requires ImageOf(s, x, e, h, c) && exists i :: 0 <= i < |rec.aliases| && RefusedAt(x.names, h, rec.aliases[i])
    ensures LostOne(s, x, e, c)
  {
    var i :| 0 <= i < |rec.aliases| && RefusedAt(x.names, h, rec.aliases[i]);
    var n := rec.aliases[i].value.normalized;
    assert rec.aliases[i] in rec.aliases && (e, n) in s.names.aliases;
    assert AliasRefused(s, x, e, n, c);
  }

  // ---- every parcel's -----------------------------------------------------------------------------

  /** The entities of the first `n` channels have been tried there, and what is reported
      incomplete lost an alias in one of the channels. */
  ghost predicate TriedUpTo(f: Following, s: Store, ps: map<Channel, Parcel>, order: seq<Channel>, n: nat)
    requires n <= |order| && forall c | c in order :: c in ps
  {
    && (forall i | 0 <= i < n :: TriedIn(f, s, ps, order[i]))
    && (forall e | e in f.incomplete :: exists c :: LostIn(f, s, ps, e, c))
  }

  ghost predicate TriedIn(f: Following, s: Store, ps: map<Channel, Parcel>, c: Channel)
    requires c in ps
  {
    forall e | e in ps[c].entities :: Tried(s, f.store, e, c)
  }

  ghost predicate LostIn(f: Following, s: Store, ps: map<Channel, Parcel>, e: nat, c: Channel) {
    c in ps && e in ps[c].entities && LostOne(s, f.store, e, c)
  }

  lemma {:induction false} TriedStaysUpTo(f: Following, h: Following, s: Store, ps: map<Channel, Parcel>, order: seq<Channel>, n: nat)
    requires n <= |order| && (forall c | c in order :: c in ps) && TriedUpTo(f, s, ps, order, n)
    requires Extends(f.store.names, h.store.names)
    ensures forall i | 0 <= i < n :: TriedIn(h, s, ps, order[i])
    ensures forall e | e in f.incomplete :: exists c :: LostIn(h, s, ps, e, c)
  {
    forall i, e | 0 <= i < n && e in ps[order[i]].entities ensures Tried(s, h.store, e, order[i]) {
      assert TriedIn(f, s, ps, order[i]);
      TriedStays(s, f.store, h.store, e, order[i]);
    }
    forall e | e in f.incomplete ensures exists c :: LostIn(h, s, ps, e, c) {
      var c :| LostIn(f, s, ps, e, c);
      TriedStays(s, f.store, h.store, e, c);
      assert LostIn(h, s, ps, e, c);
    }
  }

  /** What one parcel's carry adds to that. */
  lemma {:induction false} NextTried(f: Following, h: Following, s: Store, g: Reading, c: Channel, p: Parcel, now: int, agent: Agent, from: Channel)
    requires ParcelOf(s, g, p) && h == CarryNext(f, s, g, c, p, now)
    requires Valid(s) && Valid(f.store) && Grows(s, f.store) && Reads(s, agent, from, g) && agent != NoAgent
    ensures Extends(f.store.names, h.store.names)
    ensures forall e | e in p.entities :: Tried(s, h.store, e, c)
    ensures forall e | e in h.incomplete && e !in f.incomplete :: e in p.entities && LostOne(s, h.store, e, c)
  {
    ParcelUndropped(f.store, s, g, c, p, now, agent, from);
    CarryNextKeeps(f, h, s, g, c, p, now);
    forall e | e in p.entities ensures Tried(s, h.store, e, c) {
      EntityTried(f.store, s, g, c, p, now, agent, from, e);
    }
    forall e | e in h.incomplete && e !in f.incomplete ensures e in p.entities && LostOne(s, h.store, e, c) {
      IncompleteLost(f.store, s, g, c, p, now, agent, from, e);
    }
  }

  lemma {:induction false} OneMoreTried(f: Following, h: Following, s: Store, ps: map<Channel, Parcel>,
                                        order: seq<Channel>, i: nat, n: nat, c: Channel)
    requires n == i + 1 && n <= |order| && (forall c | c in order :: c in ps) && c == order[i]
    requires Extends(f.store.names, h.store.names) && TriedUpTo(f, s, ps, order, i)
    requires forall e | e in ps[c].entities :: Tried(s, h.store, e, c)
    requires forall e | e in h.incomplete && e !in f.incomplete :: e in ps[c].entities && LostOne(s, h.store, e, c)
    ensures TriedUpTo(h, s, ps, order, n)
  {
    TriedStaysUpTo(f, h, s, ps, order, i);
    forall j | 0 <= j < n ensures TriedIn(h, s, ps, order[j]) {
      assert j < i || order[j] == c;
    }
    forall e | e in h.incomplete ensures exists d :: LostIn(h, s, ps, e, d) {
      assert e !in f.incomplete ==> LostIn(h, s, ps, e, c);
    }
  }

  lemma {:induction false} AllTried(run: seq<Following>, s: Store, g: Reading, ps: map<Channel, Parcel>,
                                    order: seq<Channel>, now: int, n: nat, agent: Agent, from: Channel)
    requires Parcels(s, g, ps) && CarriesAll(run, s, g, ps, order, now) && n <= |order|
    requires Valid(s) && Reads(s, agent, from, g) && agent != NoAgent
    ensures TriedUpTo(run[n], s, ps, order, n)
  {
    if n > 0 {
      var i := n - 1;
      AllTried(run, s, g, ps, order, now, i, agent, from);
      CarryAllKeeps(run, s, g, ps, order, now, i);
      var f, h, c, p := StepAt(run, s, g, ps, order, now, i, n);
      NextTried(f, h, s, g, c, p, now, agent, from);
      OneMoreTried(f, h, s, ps, order, i, n, c);
    }
  }
}
