/** Where what is new after a pass of `follow_rechannelled` comes from (cpersona/associations.py,
    742-825): every new entity, alias, mention and relation is a copy of one that was to be
    carried, with what it said. */
module Origins {
  import opened Common
  import opened Graph
  import opened Carry
  import opened Rechannel
  import opened Follow
  import opened Elsewhere
  import opened Undropped

  // ---- what a copy is ---------------------------------------------------------------------------

  /** An entity's row filed in another channel. */
  predicate RowCopied(was: Entity, row: Entity, c: Channel) {
    row.scope == was.scope.(channel := c) && row.name == was.name && row.note == was.note
  }

  /** A row copies an entity that goes to its channel. */
  ghost predicate EntityBegins(s: Store, g: Reading, landing: map<Ref, Channel>, row: Entity) {
    exists e, c :: e in g.entities && e in s.names.entities && GoesTo(g, landing, e, c) && RowCopied(s.names.entities[e], row, c)
  }

  /** An alias is its entity's original's, as it is written there. */
  ghost predicate AliasBegins(s: Store, t: Store, g: Reading, landing: map<Ref, Channel>, h: nat, n: Norm, written: string) {
    exists e, c :: e in g.entities && GoesTo(g, landing, e, c) && ImageOf(s, t, e, h, c)
      && (e, n) in s.names.aliases && s.names.aliases[(e, n)] == written
  }

  /** A mention is of a moved record, in its channel, by an original's image. */
  ghost predicate MentionBegins(s: Store, t: Store, g: Reading, landing: map<Ref, Channel>, h: nat, ref: Ref, note: Note) {
    && ref in landing
    && (exists e :: e in g.entities && (e, ref) in s.mentions && ImageOf(s, t, e, h, landing[ref]) && s.mentions[(e, ref)] == note)
  }

  /** A relation is due in a channel: it follows a record there, or is to be copied there. */
  ghost predicate DueIn(g: Reading, landing: map<Ref, Channel>, r: Relation, c: Channel) {
    (exists ref :: Follows(r, landing, ref) && landing[ref] == c) || CopiesTo(g, landing, r, c)
  }

  ghost predicate RelationBegins(s: Store, t: Store, g: Reading, landing: map<Ref, Channel>, q: Relation, note: Note) {
    exists r, c :: r in g.relations && r in s.relations && DueIn(g, landing, r, c) && RelationImage(s, t, g, r, q, c)
      && s.relations[r] == note
  }

  ghost predicate NewEntities(s: Store, x: Store, y: Store, g: Reading, landing: map<Ref, Channel>) {
    forall h | h in y.names.entities && h !in x.names.entities :: EntityBegins(s, g, landing, y.names.entities[h])
  }

  ghost predicate NewAliases(s: Store, x: Store, y: Store, g: Reading, landing: map<Ref, Channel>) {
    forall h: nat, n | (h, n) in y.names.aliases && (h, n) !in x.names.aliases ::
      AliasBegins(s, y, g, landing, h, n, y.names.aliases[(h, n)])
  }

  ghost predicate NewMentions(s: Store, x: Store, y: Store, g: Reading, landing: map<Ref, Channel>) {
    forall h: nat, ref | (h, ref) in y.mentions && (h, ref) !in x.mentions ::
      MentionBegins(s, y, g, landing, h, ref, y.mentions[(h, ref)])
  }

  ghost predicate NewRelations(s: Store, x: Store, y: Store, g: Reading, landing: map<Ref, Channel>) {
    forall q | q in y.relations && q !in x.relations :: RelationBegins(s, y, g, landing, q, y.relations[q])
  }

  // ---- what a parcel adds ------------------------------------------------------------------------

  /** What is in a channel's parcel is due there. */
  ghost predicate ParcelDue(g: Reading, landing: map<Ref, Channel>, c: Channel, p: Parcel) {
    && (forall e | e in p.entities :: GoesTo(g, landing, e, c))
    && (forall m | m in p.mentions :: m.1 in landing && landing[m.1] == c)
    && (forall r | r in p.relations :: DueIn(g, landing, r, c))
  }

  lemma {:induction false} PlannedIsDue(g: Reading, landing: map<Ref, Channel>, c: Channel)
    requires Planned(g, landing).Ok? && Plans(Planned(g, landing).value, g, landing) && c in Planned(g, landing).value
    ensures ParcelDue(g, landing, c, Planned(g, landing).value[c])
  {
    var ps := Planned(g, landing).value;
    RelationsAreDue(g, landing, |g.relations|);
    CopiesAreDue(RelationsTaken(g, landing, |g.relations|).value, g, landing, |g.relations|);
    forall r | r in ps[c].relations ensures DueIn(g, landing, r, c) {
      assert RelationPacked(ps[c], g, r);
      if LandingOf(r, landing) == Some(c) {
        LandsWhereItFollows(r, landing, c);
      } else {
        PlannedCopies(ps, g, landing, r, c);
      }
    }
  }

  lemma {:induction false} RowIsCopied(s: Store, g: Reading, e: nat, c: Channel, row: Entity, now: int, agent: Agent, from: Channel)
    requires Reads(s, agent, from, g) && e in g.entities && EntitySays(AsIs(now), Refiled(g.entities[e], c), row)
    ensures RowCopied(s.names.entities[e], row, c)
  {
    assert Describes(s.names, e, g.entities[e]);
  }

  lemma {:induction false} EntitiesCome(t: Store, s: Store, g: Reading, c: Channel, p: Parcel, now: int)
    requires ParcelOf(s, g, p) && ValidNames(t.names)
    ensures var b, done := BundleOf(s, g, c, p), CarryParcel(t, s, g, c, p, now);
      EntitiesFrom(t.names, done.store.names, AsIs(now), b.entities, |b.entities|)
  {
    BundleIsKeyed(s, g, c, p);
    CarryIsFaithful(t, BundleOf(s, g, c, p), AsIs(now), InPlace(p));
  }

  lemma {:induction false} ParcelEntities(t: Store, s: Store, g: Reading, landing: map<Ref, Channel>, c: Channel, p: Parcel, now: int,
                                          agent: Agent, from: Channel)
    requires ParcelOf(s, g, p) && Reads(s, agent, from, g) && ParcelDue(g, landing, c, p) && ValidNames(t.names)
    ensures NewEntities(s, t, CarryParcel(t, s, g, c, p, now).store, g, landing)
  {
    var es, y := BundleOf(s, g, c, p).entities, CarryParcel(t, s, g, c, p, now).store;
    EntitiesCome(t, s, g, c, p, now);
    forall h | h in y.names.entities && h !in t.names.entities ensures EntityBegins(s, g, landing, y.names.entities[h]) {
      var i :| 0 <= i < |es| && EntitySays(AsIs(now), es[i], y.names.entities[h]);
      EntityBegun(s, g, landing, c, p, p.entities[i], y.names.entities[h], now, agent, from);
    }
  }

  lemma {:induction false} EntityBegun(s: Store, g: Reading, landing: map<Ref, Channel>, c: Channel, p: Parcel, e: nat, row: Entity, now: int,
                                       agent: Agent, from: Channel)
    requires Reads(s, agent, from, g) && ParcelDue(g, landing, c, p) && e in p.entities && e in g.entities
    requires EntitySays(AsIs(now), Refiled(g.entities[e], c), row)
    ensures EntityBegins(s, g, landing, row)
  {
    RowIsCopied(s, g, e, c, row, now, agent, from);
  }

  lemma {:induction false} AliasesCome(t: Store, s: Store, g: Reading, c: Channel, p: Parcel, now: int)
    requires ParcelOf(s, g, p) && ValidNames(t.names)
    ensures var b, done := BundleOf(s, g, c, p), CarryParcel(t, s, g, c, p, now);
      AliasesFrom(t.names, done.landed, b.entities, |b.entities|) && done.store.names == done.landed.names
  {
    BundleIsKeyed(s, g, c, p);
    CarryIsFaithful(t, BundleOf(s, g, c, p), AsIs(now), InPlace(p));
  }

  lemma {:induction false} ParcelAliases(t: Store, s: Store, g: Reading, landing: map<Ref, Channel>, c: Channel, p: Parcel, now: int,
                                         agent: Agent, from: Channel)
    requires ParcelOf(s, g, p) && Reads(s, agent, from, g) && ParcelDue(g, landing, c, p) && ValidNames(t.names)
    requires CarryParcel(t, s, g, c, p, now).dropped == 0
    ensures NewAliases(s, t, CarryParcel(t, s, g, c, p, now).store, g, landing)
  {
    var es, done := BundleOf(s, g, c, p).entities, CarryParcel(t, s, g, c, p, now);
    AliasesCome(t, s, g, c, p, now);
    forall h: nat, n | (h, n) in done.store.names.aliases && (h, n) !in t.names.aliases
      ensures AliasBegins(s, done.store, g, landing, h, n, done.store.names.aliases[(h, n)])
    {
      var i :| 0 <= i < |es| && AliasSays(done.store.names, done.landed, es[i], h, n);
      EntityArrives(t, s, g, c, p, now, p.entities[i], agent, from);
      AliasBegun(s, done.store, g, landing, c, p, p.entities[i], h, n, agent, from);
    }
  }

  lemma {:induction false} AliasBegun(s: Store, y: Store, g: Reading, landing: map<Ref, Channel>, c: Channel, p: Parcel, e: nat, h: nat, n: Norm,
                                      agent: Agent, from: Channel)
    requires Reads(s, agent, from, g) && ParcelDue(g, landing, c, p) && e in p.entities && e in g.entities
    requires ImageOf(s, y, e, h, c) && (h, n) in y.names.aliases
    requires Some(Term(y.names.aliases[(h, n)], n)) in g.entities[e].aliases
    ensures AliasBegins(s, y, g, landing, h, n, y.names.aliases[(h, n)])
  {
    assert Describes(s.names, e, g.entities[e]);
  }

  lemma {:induction false} MentionsCome(t: Store, s: Store, g: Reading, c: Channel, p: Parcel, now: int)
    requires ParcelOf(s, g, p) && ValidNames(t.names)
    ensures var b, done := BundleOf(s, g, c, p), CarryParcel(t, s, g, c, p, now);
      MentionsFrom(t, done.store, done.landed, AsIs(now), b.mentions, |b.mentions|)
  {
    BundleIsKeyed(s, g, c, p);
    CarryIsFaithful(t, BundleOf(s, g, c, p), AsIs(now), InPlace(p));
  }

  lemma {:induction false} ParcelMentions(t: Store, s: Store, g: Reading, landing: map<Ref, Channel>, c: Channel, p: Parcel, now: int,
                                          agent: Agent, from: Channel)
    requires ParcelOf(s, g, p) && Reads(s, agent, from, g) && ParcelDue(g, landing, c, p) && ValidNames(t.names)
    requires CarryParcel(t, s, g, c, p, now).dropped == 0
    ensures NewMentions(s, t, CarryParcel(t, s, g, c, p, now).store, g, landing)
  {
    var ms, done := BundleOf(s, g, c, p).mentions, CarryParcel(t, s, g, c, p, now);
    MentionsCome(t, s, g, c, p, now);
    forall h: nat, ref | (h, ref) in done.store.mentions && (h, ref) !in t.mentions
      ensures MentionBegins(s, done.store, g, landing, h, ref, done.store.mentions[(h, ref)])
    {
      var i :| 0 <= i < |ms| && MentionSays(done.landed, t.records, AsIs(now), ms[i], (h, ref))
        && SaidBy(done.store.mentions[(h, ref)], ms[i].declaredBy, ms[i].at, now);
      assert MentionPacked(p, g, p.mentions[i]);
      EntityArrives(t, s, g, c, p, now, p.mentions[i].0, agent, from);
      MentionBegun(s, done.store, g, landing, c, p, p.mentions[i], h, ref, now);
    }
  }

  lemma {:induction false} MentionBegun(s: Store, y: Store, g: Reading, landing: map<Ref, Channel>, c: Channel, p: Parcel, m: (nat, Ref),
                                        h: nat, ref: Ref, now: int)
    requires ParcelOf(s, g, p) && m.0 in g.entities && ParcelDue(g, landing, c, p) && m in p.mentions && m.1 == ref
    requires ImageOf(s, y, m.0, h, c) && (h, ref) in y.mentions
    requires SaidBy(y.mentions[(h, ref)], MentionRow(s, m).declaredBy, MentionRow(s, m).at, now)
    ensures MentionBegins(s, y, g, landing, h, ref, y.mentions[(h, ref)])
  {
    assert (m.0, m.1) == m;
  }

  lemma {:induction false} RelationsCome(t: Store, s: Store, g: Reading, c: Channel, p: Parcel, now: int)
    requires ParcelOf(s, g, p) && ValidNames(t.names)
    ensures var b, done := BundleOf(s, g, c, p), CarryParcel(t, s, g, c, p, now);
      RelationsFrom(t, done.store, done.landed, AsIs(now), b.relations, |b.relations|)
  {
    BundleIsKeyed(s, g, c, p);
    CarryIsFaithful(t, BundleOf(s, g, c, p), AsIs(now), InPlace(p));
  }

  lemma {:induction false} ParcelRelations(t: Store, s: Store, g: Reading, landing: map<Ref, Channel>, c: Channel, p: Parcel, now: int,
                                           agent: Agent, from: Channel)
    requires ParcelOf(s, g, p) && Reads(s, agent, from, g) && ParcelDue(g, landing, c, p) && ValidNames(t.names)
    requires CarryParcel(t, s, g, c, p, now).dropped == 0
    ensures NewRelations(s, t, CarryParcel(t, s, g, c, p, now).store, g, landing)
  {
    var rs, done := BundleOf(s, g, c, p).relations, CarryParcel(t, s, g, c, p, now);
    RelationsCome(t, s, g, c, p, now);
    forall q | q in done.store.relations && q !in t.relations
      ensures RelationBegins(s, done.store, g, landing, q, done.store.relations[q])
    {
      var i :| 0 <= i < |rs| && RelationSays(done.landed, t.records, AsIs(now), rs[i], q)
        && SaidBy(done.store.relations[q], rs[i].declaredBy, rs[i].at, now);
      RelationFromParcel(t, s, g, c, p, now, agent, from, i, q);
      RelationBegun(s, done.store, g, landing, c, p, p.relations[i], q, now);
    }
  }

  lemma {:induction false} RelationBegun(s: Store, y: Store, g: Reading, landing: map<Ref, Channel>, c: Channel, p: Parcel,
                                         r: Relation, q: Relation, now: int)
    requires ParcelOf(s, g, p) && ParcelDue(g, landing, c, p) && r in p.relations && RelationImage(s, y, g, r, q, c)
    requires SaidBy(y.relations[q], RelationRow(s, r, c).declaredBy, RelationRow(s, r, c).at, now)
    ensures RelationBegins(s, y, g, landing, q, y.relations[q])
  {
    assert RelationPacked(p, g, r);
  }

  lemma {:induction false} RelationFromParcel(t: Store, s: Store, g: Reading, c: Channel, p: Parcel, now: int, agent: Agent, from: Channel,
                                              i: nat, q: Relation)
    requires ParcelOf(s, g, p) && Reads(s, agent, from, g) && ValidNames(t.names) && i < |p.relations|
    requires CarryParcel(t, s, g, c, p, now).dropped == 0 && q in CarryParcel(t, s, g, c, p, now).store.relations
    requires RelationSays(CarryParcel(t, s, g, c, p, now).landed, t.records, AsIs(now), RelationRow(s, p.relations[i], c), q)
    ensures RelationImage(s, CarryParcel(t, s, g, c, p, now).store, g, p.relations[i], q, c)
  {
    var done, r := CarryParcel(t, s, g, c, p, now), p.relations[i];
    assert RelationPacked(p, g, r);
    RelationHereIs(done.landed, t.records, AsIs(now), RelationRow(s, r, c), q);
    RelationRowHere(done.landed, t.records, s, r, c, now);
    EndArrives(t, s, g, c, p, now, r.subject, r.scope.agent, agent, from);
    EndArrives(t, s, g, c, p, now, r.target, r.scope.agent, agent, from);
  }

  // ---- all parcels together ------------------------------------------------------------------------

  /** All that is new in a store is such copies. */
  ghost predicate OnlyCopies(s: Store, y: Store, g: Reading, landing: map<Ref, Channel>) {
    NewEntities(s, s, y, g, landing) && NewAliases(s, s, y, g, landing)
    && NewMentions(s, s, y, g, landing) && NewRelations(s, s, y, g, landing)
  }

  /** What an agent has that is new is a copy of what it had. */
  ghost predicate OwnCopies(s: Store, t: Store, g: Reading, landing: map<Ref, Channel>, agent: Agent) {
    && (forall h | OwnIn(t, h, agent) && h !in s.names.entities :: EntityBegins(s, g, landing, t.names.entities[h]))
    && (forall h: nat, n | OwnIn(t, h, agent) && (h, n) in t.names.aliases && (h, n) !in s.names.aliases ::
          AliasBegins(s, t, g, landing, h, n, t.names.aliases[(h, n)]))
    && (forall h: nat, ref | OwnIn(t, h, agent) && (h, ref) in t.mentions && (h, ref) !in s.mentions ::
          MentionBegins(s, t, g, landing, h, ref, t.mentions[(h, ref)]))
    && (forall q | q in t.relations && q !in s.relations && q.scope.agent == agent ::
          RelationBegins(s, t, g, landing, q, t.relations[q]))
  }

  lemma {:induction false} ImageGrows(s: Store, x: Store, y: Store, e: nat, h: nat, c: Channel)
    requires Grows(x, y) && ImageOf(s, x, e, h, c)
    ensures ImageOf(s, y, e, h, c)
  {
  }

  lemma {:induction false} AliasesAdded(s: Store, x: Store, y: Store, g: Reading, landing: map<Ref, Channel>)
    requires NewAliases(s, s, x, g, landing) && NewAliases(s, x, y, g, landing) && Grows(x, y)
    ensures NewAliases(s, s, y, g, landing)
  {
    forall h: nat, n | (h, n) in y.names.aliases && (h, n) !in s.names.aliases
      ensures AliasBegins(s, y, g, landing, h, n, y.names.aliases[(h, n)])
    {
      if (h, n) in x.names.aliases {
        assert AliasBegins(s, x, g, landing, h, n, x.names.aliases[(h, n)]);
        var e, c :| e in g.entities && GoesTo(g, landing, e, c) && ImageOf(s, x, e, h, c)
          && (e, n) in s.names.aliases && s.names.aliases[(e, n)] == x.names.aliases[(h, n)];
        ImageGrows(s, x, y, e, h, c);
      }
    }
  }

  lemma {:induction false} MentionsAdded(s: Store, x: Store, y: Store, g: Reading, landing: map<Ref, Channel>)
    requires NewMentions(s, s, x, g, landing) && NewMentions(s, x, y, g, landing) && Grows(x, y)
    ensures NewMentions(s, s, y, g, landing)
  {
    forall h: nat, ref | (h, ref) in y.mentions && (h, ref) !in s.mentions
      ensures MentionBegins(s, y, g, landing, h, ref, y.mentions[(h, ref)])
    {
      if (h, ref) in x.mentions {
        assert MentionBegins(s, x, g, landing, h, ref, x.mentions[(h, ref)]);
        var e :| e in g.entities && (e, ref) in s.mentions && ImageOf(s, x, e, h, landing[ref])
          && s.mentions[(e, ref)] == x.mentions[(h, ref)];
        ImageGrows(s, x, y, e, h, landing[ref]);
      }
    }
  }

  lemma {:induction false} RelationGrows(s: Store, x: Store, y: Store, g: Reading, r: Relation, q: Relation, c: Channel)
    requires Grows(x, y) && RelationImage(s, x, g, r, q, c)
    ensures RelationImage(s, y, g, r, q, c)
  {
  }

  lemma {:induction false} RelationsAdded(s: Store, x: Store, y: Store, g: Reading, landing: map<Ref, Channel>)
    requires NewRelations(s, s, x, g, landing) && NewRelations(s, x, y, g, landing) && Grows(x, y)
    ensures NewRelations(s, s, y, g, landing)
  {
    forall q | q in y.relations && q !in s.relations ensures RelationBegins(s, y, g, landing, q, y.relations[q]) {
      if q in x.relations {
        assert RelationBegins(s, x, g, landing, q, x.relations[q]);
        var r, c :| r in g.relations && r in s.relations && DueIn(g, landing, r, c) && RelationImage(s, x, g, r, q, c)
          && s.relations[r] == x.relations[q];
        RelationGrows(s, x, y, g, r, q, c);
      }
    }
  }

  lemma {:induction false} NextCopies(f: Following, h: Following, s: Store, g: Reading, landing: map<Ref, Channel>, c: Channel, p: Parcel,
                                      now: int, agent: Agent, from: Channel)
    requires ParcelOf(s, g, p) && h == CarryNext(f, s, g, c, p, now) && ParcelDue(g, landing, c, p)
    requires Valid(s) && Valid(f.store) && Grows(s, f.store) && Reads(s, agent, from, g) && agent != NoAgent
    requires OnlyCopies(s, f.store, g, landing)
    ensures OnlyCopies(s, h.store, g, landing)
  {
    CarryNextKeeps(f, h, s, g, c, p, now);
    ParcelUndropped(f.store, s, g, c, p, now, agent, from);
    ParcelEntities(f.store, s, g, landing, c, p, now, agent, from);
    ParcelAliases(f.store, s, g, landing, c, p, now, agent, from);
    ParcelMentions(f.store, s, g, landing, c, p, now, agent, from);
    ParcelRelations(f.store, s, g, landing, c, p, now, agent, from);
    AliasesAdded(s, f.store, h.store, g, landing);
    MentionsAdded(s, f.store, h.store, g, landing);
    RelationsAdded(s, f.store, h.store, g, landing);
  }

  lemma {:induction false} AllCopies(run: seq<Following>, s: Store, g: Reading, landing: map<Ref, Channel>, order: seq<Channel>, now: int,
                                     n: nat, agent: Agent, from: Channel)
    requires Planned(g, landing).Ok? && Plans(Planned(g, landing).value, g, landing) && Parcels(s, g, Planned(g, landing).value)
    requires CarriesAll(run, s, g, Planned(g, landing).value, order, now) && n <= |order|
    requires Valid(s) && Reads(s, agent, from, g) && agent != NoAgent
    ensures OnlyCopies(s, run[n].store, g, landing)
  {
    if n > 0 {
      var i, ps := n - 1, Planned(g, landing).value;
      AllCopies(run, s, g, landing, order, now, i, agent, from);
      CarryAllKeeps(run, s, g, ps, order, now, i);
      var f, h, c, p := StepAt(run, s, g, ps, order, now, i, n);
      PlannedIsDue(g, landing, c);
      NextCopies(f, h, s, g, landing, c, p, now, agent, from);
    }
  }

  // ---- once the old channel is settled ---------------------------------------------------------------

  lemma {:induction false} DueSomewhere(g: Reading, landing: map<Ref, Channel>, r: Relation, c: Channel)
    requires DueIn(g, landing, r, c)
    ensures c in landing.Values
  {
    if CopiesTo(g, landing, r, c) {
      if r.subject.entity in g.entities && GoesTo(g, landing, r.subject.entity, c) {
        LandsSomewhere(g, landing, r.subject.entity, c);
      } else {
        LandsSomewhere(g, landing, r.target.entity, c);
      }
    }
  }

  lemma {:induction false} SettledCopies(s: Store, x: Store, t: Store, g: Reading, landing: map<Ref, Channel>, agent: Agent, from: Channel)
    requires OnlyCopies(s, x, g, landing) && PartOf(t, x) && KeepsOthers(x, t, agent, from) && from !in landing.Values
    ensures OnlyCopies(s, t, g, landing)
  {
    forall h: nat, n | (h, n) in t.names.aliases && (h, n) !in s.names.aliases
      ensures AliasBegins(s, t, g, landing, h, n, t.names.aliases[(h, n)])
    {
      assert AliasBegins(s, x, g, landing, h, n, x.names.aliases[(h, n)]);
      var e, c :| e in g.entities && GoesTo(g, landing, e, c) && ImageOf(s, x, e, h, c)
        && (e, n) in s.names.aliases && s.names.aliases[(e, n)] == x.names.aliases[(h, n)];
      LandsSomewhere(g, landing, e, c);
      ImageStays(s, x, t, e, h, c, agent, from);
    }
    SettledMentions(s, x, t, g, landing, agent, from);
    SettledRelations(s, x, t, g, landing, agent, from);
  }

  lemma {:induction false} SettledMentions(s: Store, x: Store, t: Store, g: Reading, landing: map<Ref, Channel>, agent: Agent, from: Channel)
    requires NewMentions(s, s, x, g, landing) && PartOf(t, x) && KeepsOthers(x, t, agent, from) && from !in landing.Values
    ensures NewMentions(s, s, t, g, landing)
  {
    forall h: nat, ref | (h, ref) in t.mentions && (h, ref) !in s.mentions
      ensures MentionBegins(s, t, g, landing, h, ref, t.mentions[(h, ref)])
    {
      assert MentionBegins(s, x, g, landing, h, ref, x.mentions[(h, ref)]);
      var e :| e in g.entities && (e, ref) in s.mentions && ImageOf(s, x, e, h, landing[ref])
        && s.mentions[(e, ref)] == x.mentions[(h, ref)];
      ImageStays(s, x, t, e, h, landing[ref], agent, from);
    }
  }

  lemma {:induction false} SettledRelations(s: Store, x: Store, t: Store, g: Reading, landing: map<Ref, Channel>, agent: Agent, from: Channel)
    requires NewRelations(s, s, x, g, landing) && PartOf(t, x) && KeepsOthers(x, t, agent, from) && from !in landing.Values
    ensures NewRelations(s, s, t, g, landing)
  {
    forall q | q in t.relations && q !in s.relations ensures RelationBegins(s, t, g, landing, q, t.relations[q]) {
      assert RelationBegins(s, x, g, landing, q, x.relations[q]);
      var r, c :| r in g.relations && r in s.relations && DueIn(g, landing, r, c) && RelationImage(s, x, g, r, q, c)
        && s.relations[r] == x.relations[q];
      DueSomewhere(g, landing, r, c);
      EndStaysMoved(s, x, t, g, r.subject, q.subject, c, agent, from);
      EndStaysMoved(s, x, t, g, r.target, q.target, c, agent, from);
    }
  }

  /** A completed pass of a named agent invents nothing. */
  lemma {:induction false} PassOnlyCopies(s: Store, t: Store, g: Reading, landing: map<Ref, Channel>, now: int,
                                          run: seq<Following>, order: seq<Channel>, agent: Agent, from: Channel)
    requires Valid(s) && Reads(s, agent, from, g) && from !in landing.Values && agent != NoAgent
    requires Passes(s, t, g, landing, now, run, order)
    ensures OnlyCopies(s, t, g, landing)
  {
    var ps, f := Planned(g, landing).value, run[|order|];
    PlannedHolds(s, g, landing, agent, from);
    CarryAllKeeps(run, s, g, ps, order, now, |order|);
    AllCopies(run, s, g, landing, order, now, |order|, agent, from);
    SettleSettles(f, s, g, landing, ps, s.names.last, agent, from);
    SettledIsPart(f, g, landing, ps, s.names.last);
    SettledCopies(s, f.store, t, g, landing, agent, from);
  }
}
