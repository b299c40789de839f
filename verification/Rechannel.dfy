/** Following re-filed records to their new channel (cpersona/associations.py,
    `follow_rechannelled`): no declaration is lost on the way. */
module Rechannel {
  import opened Common
  import opened Graph
  import opened Carry

  /** What an agent declared in one channel, as it was read. */
  datatype Reading = Reading(entities: map<nat, EntityRecord>, mentions: seq<(nat, Ref)>, relations: seq<Relation>)

  predicate Filed(scope: Scope, agent: Agent, from: Channel) {
    scope.agent == agent && scope.channel == from
  }

  /** An entity's record: its row, and its aliases in some order. */
  ghost predicate Describes(x: Names, id: nat, rec: EntityRecord)
    requires id in x.entities
  {
    && rec.id == id && rec.scope == x.entities[id].scope && rec.name == Some(x.entities[id].name)
    && rec.declaredBy == Some(x.entities[id].note.declaredBy) && rec.at == Some(x.entities[id].note.at)
    && (forall i | 0 <= i < |rec.aliases| :: rec.aliases[i].Some?)
    && (forall n | (id, n) in x.aliases :: Some(Term(x.aliases[(id, n)], n)) in rec.aliases)
    && (forall a | a in rec.aliases && a.Some? ::
          (id, a.value.normalized) in x.aliases && x.aliases[(id, a.value.normalized)] == a.value.written)
  }

  ghost predicate Reads(s: Store, agent: Agent, from: Channel, g: Reading) {
    && (forall id :: id in g.entities <==> id in s.names.entities && Filed(s.names.entities[id].scope, agent, from))
    && (forall id | id in g.entities :: Describes(s.names, id, g.entities[id]))
    && (forall e, ref :: (e, ref) in g.mentions <==> (e, ref) in s.mentions && e in g.entities)
    && (forall r :: r in g.relations <==> r in s.relations && Filed(r.scope, agent, from))
  }

  /** The channel a relation follows: its anchor's, else that of a record it names. */
  function LandingOf(r: Relation, landing: map<Ref, Channel>): Option<Channel> {
    if r.anchor.Some? then if r.anchor.value in landing then Some(landing[r.anchor.value]) else None
    else if r.subject.Item? && r.subject.ref in landing then Some(landing[r.subject.ref])
    else if r.target.Item? && r.target.ref in landing then Some(landing[r.target.ref])
    else None
  }

  /** The record a relation follows is its anchor; without one, its subject when that was
      re-filed, and its target otherwise. */
  predicate Follows(r: Relation, landing: map<Ref, Channel>, ref: Ref) {
    ref in landing
    && if r.anchor.Some? then r.anchor.value == ref
       else r.subject == Item(ref) || (r.target == Item(ref) && !(r.subject.Item? && r.subject.ref in landing))
  }

  lemma {:induction false} LandsWhereItFollows(r: Relation, landing: map<Ref, Channel>, c: Channel)
    ensures LandingOf(r, landing) == Some(c) <==> exists ref :: Follows(r, landing, ref) && landing[ref] == c
  {
    if LandingOf(r, landing) == Some(c) {
      var ref := if r.anchor.Some? then r.anchor.value
                 else if r.subject.Item? && r.subject.ref in landing then r.subject.ref
                 else r.target.ref;
      assert Follows(r, landing, ref);
    }
  }

  /** A channel an entity is to be carried to: some record it is mentioned for went there, or
      some relation that names it follows a record there. */
  ghost predicate GoesTo(g: Reading, landing: map<Ref, Channel>, e: nat, c: Channel) {
    || (exists ref :: (e, ref) in g.mentions && ref in landing && landing[ref] == c)
    || (exists r :: r in g.relations && LandingOf(r, landing) == Some(c) && Touches(r, Thing(e)))
  }

  /** A channel a relation with no record behind it is to be copied to: one of its entities goes
      there, and each goes there too or is filed elsewhere. */
  ghost predicate CopiesTo(g: Reading, landing: map<Ref, Channel>, r: Relation, c: Channel) {
    && r in g.relations && r.anchor.None? && r.subject.Thing? && r.target.Thing?
    && ((r.subject.entity in g.entities && GoesTo(g, landing, r.subject.entity, c))
        || (r.target.entity in g.entities && GoesTo(g, landing, r.target.entity, c)))
    && (r.subject.entity in g.entities ==> GoesTo(g, landing, r.subject.entity, c))
    && (r.target.entity in g.entities ==> GoesTo(g, landing, r.target.entity, c))
  }

  // ---- what goes to which channel --------------------------------------------------------

  /** What is carried into one channel: entities by id, mentions, relations. */
  datatype Parcel = Parcel(entities: seq<nat>, mentions: seq<(nat, Ref)>, relations: seq<Relation>)

  function ParcelAt(ps: map<Channel, Parcel>, c: Channel): Parcel {
    if c in ps then ps[c] else Parcel([], [], [])
  }

  /** A channel's parcel, begun if it has none, with an entity filed in the old channel. */
  function Take(ps: map<Channel, Parcel>, g: Reading, c: Channel, id: nat): map<Channel, Parcel> {
    var p := ParcelAt(ps, c);
    ps[c := if id in g.entities && id !in p.entities then p.(entities := p.entities + [id]) else p]
  }

  function TakeEnd(ps: map<Channel, Parcel>, g: Reading, c: Channel, end: End): map<Channel, Parcel> {
    if end.Thing? then Take(ps, g, c, end.entity) else ps
  }

  function TakeMention(ps: map<Channel, Parcel>, g: Reading, landing: map<Ref, Channel>, m: (nat, Ref)): map<Channel, Parcel> {
    if m.1 !in landing then ps
    else
      var c := landing[m.1];
      var qs := Take(ps, g, c, m.0);
      qs[c := qs[c].(mentions := qs[c].mentions + [m])]
  }

  function TakeEnds(ps: map<Channel, Parcel>, g: Reading, c: Channel, r: Relation): map<Channel, Parcel> {
    TakeEnd(TakeEnd(ps, g, c, r.subject), g, c, r.target)
  }

  /** A relation taken along; the code indexes the channel's parcel without beginning one. */
  function TakeRelation(ps: map<Channel, Parcel>, g: Reading, landing: map<Ref, Channel>, r: Relation): Result<map<Channel, Parcel>> {
    match LandingOf(r, landing)
    case None => Ok(ps)
    case Some(c) =>
      var qs := TakeEnds(ps, g, c, r);
      if c !in qs then Refused
      else Ok(qs[c := qs[c].(relations := qs[c].relations + [r])])
  }

  /** A relation between entities alone is copied where one end was carried and the other is
      there too or is filed elsewhere. */
  predicate Copies(p: Parcel, g: Reading, r: Relation) {
    && r.anchor.None? && r.subject.Thing? && r.target.Thing?
    && (r.subject.entity in p.entities || r.target.entity in p.entities)
    && (r.subject.entity in p.entities || r.subject.entity !in g.entities)
    && (r.target.entity in p.entities || r.target.entity !in g.entities)
  }

  function CopyRelation(ps: map<Channel, Parcel>, g: Reading, r: Relation): map<Channel, Parcel> {
    map c | c in ps :: if Copies(ps[c], g, r) then ps[c].(relations := ps[c].relations + [r]) else ps[c]
  }

  function MentionsTaken(g: Reading, landing: map<Ref, Channel>, n: nat): map<Channel, Parcel>
    requires n <= |g.mentions|
  {
    if n == 0 then map[] else TakeMention(MentionsTaken(g, landing, n - 1), g, landing, g.mentions[n-1])
  }

  function RelationsTaken(g: Reading, landing: map<Ref, Channel>, n: nat): Result<map<Channel, Parcel>>
    requires n <= |g.relations|
  {
    if n == 0 then Ok(MentionsTaken(g, landing, |g.mentions|))
    else match RelationsTaken(g, landing, n - 1)
      case Refused => Refused
      case Ok(ps) => TakeRelation(ps, g, landing, g.relations[n-1])
  }

  function RelationsCopied(ps: map<Channel, Parcel>, g: Reading, n: nat): map<Channel, Parcel>
    requires n <= |g.relations|
  {
    if n == 0 then ps else CopyRelation(RelationsCopied(ps, g, n - 1), g, g.relations[n-1])
  }

  /** Every parcel is for a channel some record went to, and holds nothing but what was read. */
  ghost predicate Packed(ps: map<Channel, Parcel>, g: Reading, landing: map<Ref, Channel>) {
    && (forall c | c in ps :: c in landing.Values)
    && (forall c, i | c in ps && 0 <= i < |ps[c].entities| :: ps[c].entities[i] in g.entities)
    && (forall c, i, j | c in ps && 0 <= i < j < |ps[c].entities| :: ps[c].entities[i] != ps[c].entities[j])
    && (forall c, m | c in ps && m in ps[c].mentions :: MentionPacked(ps[c], g, m))
    && (forall c, r | c in ps && r in ps[c].relations :: RelationPacked(ps[c], g, r))
  }

  predicate MentionPacked(p: Parcel, g: Reading, m: (nat, Ref)) {
    m in g.mentions && m.0 in p.entities
  }

  predicate EndPacked(p: Parcel, g: Reading, end: End) {
    end.Thing? ==> end.entity in p.entities || end.entity !in g.entities
  }

  predicate RelationPacked(p: Parcel, g: Reading, r: Relation) {
    r in g.relations && EndPacked(p, g, r.subject) && EndPacked(p, g, r.target)
  }

  /** Every entity in a parcel is to be carried to its channel. */
  ghost predicate Justified(ps: map<Channel, Parcel>, g: Reading, landing: map<Ref, Channel>) {
    forall c, e | c in ps && e in ps[c].entities :: GoesTo(g, landing, e, c)
  }

  lemma {:induction false} TakeIsJustified(ps: map<Channel, Parcel>, g: Reading, landing: map<Ref, Channel>, c: Channel, id: nat)
    requires Justified(ps, g, landing) && GoesTo(g, landing, id, c)
    ensures Justified(Take(ps, g, c, id), g, landing)
  {
    var qs := Take(ps, g, c, id);
    forall d, e | d in qs && e in qs[d].entities ensures GoesTo(g, landing, e, d) {
      assert e in ParcelAt(ps, d).entities || (d == c && e == id);
    }
  }

  lemma {:induction false} MentionsAreJustified(g: Reading, landing: map<Ref, Channel>, n: nat)
    requires n <= |g.mentions|
    ensures Justified(MentionsTaken(g, landing, n), g, landing)
  {
    if n > 0 {
      var ps, m := MentionsTaken(g, landing, n - 1), g.mentions[n-1];
      MentionsAreJustified(g, landing, n - 1);
      if m.1 in landing {
        assert (m.0, m.1) == m;
        assert GoesTo(g, landing, m.0, landing[m.1]);
        TakeIsJustified(ps, g, landing, landing[m.1], m.0);
      }
    }
  }

  lemma {:induction false} RelationsAreJustified(g: Reading, landing: map<Ref, Channel>, n: nat)
    requires n <= |g.relations| && RelationsTaken(g, landing, n).Ok?
    ensures Justified(RelationsTaken(g, landing, n).value, g, landing)
  {
    if n == 0 {
      MentionsAreJustified(g, landing, |g.mentions|);
    } else {
      RelationsAreJustified(g, landing, n - 1);
      var ps, r := RelationsTaken(g, landing, n - 1).value, g.relations[n-1];
      if LandingOf(r, landing).Some? {
        EndsAreJustified(ps, g, landing, LandingOf(r, landing).value, r);
      }
    }
  }

  lemma {:induction false} EndsAreJustified(ps: map<Channel, Parcel>, g: Reading, landing: map<Ref, Channel>, c: Channel, r: Relation)
    requires Justified(ps, g, landing) && r in g.relations && LandingOf(r, landing) == Some(c)
    ensures Justified(TakeEnds(ps, g, c, r), g, landing)
  {
    if r.subject.Thing? {
      assert GoesTo(g, landing, r.subject.entity, c);
      TakeIsJustified(ps, g, landing, c, r.subject.entity);
    }
    if r.target.Thing? {
      assert GoesTo(g, landing, r.target.entity, c);
      TakeIsJustified(TakeEnd(ps, g, c, r.subject), g, landing, c, r.target.entity);
    }
  }

  /** A parcel's mentions are of records that went to its channel. */
  ghost predicate MentionsDue(ps: map<Channel, Parcel>, landing: map<Ref, Channel>) {
    forall c, m | c in ps && m in ps[c].mentions :: m.1 in landing && landing[m.1] == c
  }

  /** Its relations follow a record there, or are copied there. */
  ghost predicate RelationsDue(ps: map<Channel, Parcel>, g: Reading, landing: map<Ref, Channel>, copies: bool) {
    forall c, r | c in ps && r in ps[c].relations :: LandingOf(r, landing) == Some(c) || (copies && Copies(ps[c], g, r))
  }

  lemma {:induction false} TakeKeepsDue(ps: map<Channel, Parcel>, g: Reading, landing: map<Ref, Channel>, c: Channel, id: nat)
    requires MentionsDue(ps, landing) && RelationsDue(ps, g, landing, false)
    ensures MentionsDue(Take(ps, g, c, id), landing) && RelationsDue(Take(ps, g, c, id), g, landing, false)
  {
    var qs := Take(ps, g, c, id);
    forall d, m | d in qs && m in qs[d].mentions ensures m.1 in landing && landing[m.1] == d {
      assert d in ps && m in ps[d].mentions;
    }
    forall d, r | d in qs && r in qs[d].relations ensures LandingOf(r, landing) == Some(d) {
      assert d in ps && r in ps[d].relations;
    }
  }

  lemma {:induction false} MentionsAreDue(g: Reading, landing: map<Ref, Channel>, n: nat)
    requires n <= |g.mentions|
    ensures MentionsDue(MentionsTaken(g, landing, n), landing) && RelationsDue(MentionsTaken(g, landing, n), g, landing, false)
  {
    if n > 0 {
      MentionsAreDue(g, landing, n - 1);
      var ps, m := MentionsTaken(g, landing, n - 1), g.mentions[n-1];
      if m.1 in landing {
        TakeKeepsDue(ps, g, landing, landing[m.1], m.0);
        OneMoreDue(Take(ps, g, landing[m.1], m.0), g, landing, landing[m.1], m);
      }
    }
  }

  lemma {:induction false} OneMoreDue(ps: map<Channel, Parcel>, g: Reading, landing: map<Ref, Channel>, c: Channel, m: (nat, Ref))
    requires MentionsDue(ps, landing) && RelationsDue(ps, g, landing, false) && c in ps && m.1 in landing && landing[m.1] == c
    ensures var qs := ps[c := ps[c].(mentions := ps[c].mentions + [m])];
      MentionsDue(qs, landing) && RelationsDue(qs, g, landing, false)
  {
    var qs := ps[c := ps[c].(mentions := ps[c].mentions + [m])];
    forall d, a | d in qs && a in qs[d].mentions ensures a.1 in landing && landing[a.1] == d {
      assert a in ps[d].mentions || a == m;
    }
    forall d, r | d in qs && r in qs[d].relations ensures LandingOf(r, landing) == Some(d) {
      assert r in ps[d].relations;
    }
  }

  lemma {:induction false} RelationsAreDue(g: Reading, landing: map<Ref, Channel>, n: nat)
    requires n <= |g.relations| && RelationsTaken(g, landing, n).Ok?
    ensures var ps := RelationsTaken(g, landing, n).value;
      MentionsDue(ps, landing) && RelationsDue(ps, g, landing, false)
  {
    if n == 0 {
      MentionsAreDue(g, landing, |g.mentions|);
    } else {
      RelationsAreDue(g, landing, n - 1);
      var ps, r := RelationsTaken(g, landing, n - 1).value, g.relations[n-1];
      if LandingOf(r, landing).Some? {
        RelationIsDue(ps, g, landing, LandingOf(r, landing).value, r);
      }
    }
  }

  lemma {:induction false} RelationIsDue(ps: map<Channel, Parcel>, g: Reading, landing: map<Ref, Channel>, c: Channel, r: Relation)
    requires MentionsDue(ps, landing) && RelationsDue(ps, g, landing, false) && LandingOf(r, landing) == Some(c)
    requires c in TakeEnds(ps, g, c, r)
    ensures var qs := TakeEnds(ps, g, c, r);
      var us := qs[c := qs[c].(relations := qs[c].relations + [r])];
      MentionsDue(us, landing) && RelationsDue(us, g, landing, false)
  {
    if r.subject.Thing? {
      TakeKeepsDue(ps, g, landing, c, r.subject.entity);
    }
    if r.target.Thing? {
      TakeKeepsDue(TakeEnd(ps, g, c, r.subject), g, landing, c, r.target.entity);
    }
    var qs := TakeEnds(ps, g, c, r);
    var us := qs[c := qs[c].(relations := qs[c].relations + [r])];
    forall d, m | d in us && m in us[d].mentions ensures m.1 in landing && landing[m.1] == d {
      assert m in qs[d].mentions;
    }
    forall d, a | d in us && a in us[d].relations ensures LandingOf(a, landing) == Some(d) {
      assert a in qs[d].relations || a == r;
    }
  }

  lemma {:induction false} CopiesAreDue(ps: map<Channel, Parcel>, g: Reading, landing: map<Ref, Channel>, n: nat)
    requires n <= |g.relations| && MentionsDue(ps, landing) && RelationsDue(ps, g, landing, false)
    ensures MentionsDue(RelationsCopied(ps, g, n), landing) && RelationsDue(RelationsCopied(ps, g, n), g, landing, true)
  {
    if n > 0 {
      CopiesAreDue(ps, g, landing, n - 1);
      CopyIsDue(RelationsCopied(ps, g, n - 1), g, landing, g.relations[n-1]);
    }
  }

  lemma {:induction false} CopyIsDue(ps: map<Channel, Parcel>, g: Reading, landing: map<Ref, Channel>, r: Relation)
    requires MentionsDue(ps, landing) && RelationsDue(ps, g, landing, true)
    ensures MentionsDue(CopyRelation(ps, g, r), landing) && RelationsDue(CopyRelation(ps, g, r), g, landing, true)
  {
    var qs := CopyRelation(ps, g, r);
    forall d, m | d in qs && m in qs[d].mentions ensures m.1 in landing && landing[m.1] == d {
      assert m in ps[d].mentions;
    }
    forall d, a | d in qs && a in qs[d].relations ensures LandingOf(a, landing) == Some(d) || Copies(qs[d], g, a) {
      assert a in ps[d].relations || (a == r && Copies(ps[d], g, r));
    }
  }

  /** Parcels only fill up. */
  ghost predicate Fills(ps: map<Channel, Parcel>, qs: map<Channel, Parcel>) {
    forall c | c in ps ::
      && c in qs
      && (forall e | e in ps[c].entities :: e in qs[c].entities)
      && (forall m | m in ps[c].mentions :: m in qs[c].mentions)
      && (forall r | r in ps[c].relations :: r in qs[c].relations)
  }

  lemma {:induction false} TakeFills(ps: map<Channel, Parcel>, g: Reading, landing: map<Ref, Channel>, c: Channel, id: nat)
    requires Packed(ps, g, landing) && c in landing.Values
    ensures Packed(Take(ps, g, c, id), g, landing) && Fills(ps, Take(ps, g, c, id))
    ensures c in Take(ps, g, c, id) && (id in g.entities ==> id in Take(ps, g, c, id)[c].entities)
  {
    var qs := Take(ps, g, c, id);
    forall d, m | d in qs && m in qs[d].mentions ensures MentionPacked(qs[d], g, m) {
      assert d in ps && MentionPacked(ps[d], g, m);
    }
    forall d, r | d in qs && r in qs[d].relations ensures RelationPacked(qs[d], g, r) {
      assert d in ps && RelationPacked(ps[d], g, r);
    }
  }

  lemma {:induction false} TakeEndsFills(ps: map<Channel, Parcel>, g: Reading, landing: map<Ref, Channel>, c: Channel, r: Relation)
    requires Packed(ps, g, landing) && c in landing.Values
    ensures Packed(TakeEnds(ps, g, c, r), g, landing) && Fills(ps, TakeEnds(ps, g, c, r))
    ensures c in TakeEnds(ps, g, c, r) <==> c in ps || r.subject.Thing? || r.target.Thing?
    ensures c in TakeEnds(ps, g, c, r) ==>
      EndPacked(TakeEnds(ps, g, c, r)[c], g, r.subject) && EndPacked(TakeEnds(ps, g, c, r)[c], g, r.target)
  {
    if r.subject.Thing? {
      TakeFills(ps, g, landing, c, r.subject.entity);
    }
    if r.target.Thing? {
      TakeFills(TakeEnd(ps, g, c, r.subject), g, landing, c, r.target.entity);
    }
  }

  /** Putting one more relation in a parcel. */
  lemma {:induction false} PutRelation(ps: map<Channel, Parcel>, g: Reading, landing: map<Ref, Channel>, c: Channel, r: Relation)
    requires Packed(ps, g, landing) && c in ps && RelationPacked(ps[c], g, r)
    ensures var qs := ps[c := ps[c].(relations := ps[c].relations + [r])];
      Packed(qs, g, landing) && Fills(ps, qs) && r in qs[c].relations
  {
    var qs := ps[c := ps[c].(relations := ps[c].relations + [r])];
    forall d, m | d in qs && m in qs[d].mentions ensures MentionPacked(qs[d], g, m) {
      assert MentionPacked(ps[d], g, m);
    }
    forall d, a | d in qs && a in qs[d].relations ensures RelationPacked(qs[d], g, a) {
      assert a in ps[d].relations ==> RelationPacked(ps[d], g, a);
    }
  }

  lemma {:induction false} TakeMentionFills(ps: map<Channel, Parcel>, g: Reading, landing: map<Ref, Channel>, m: (nat, Ref))
    requires Packed(ps, g, landing) && m in g.mentions && m.0 in g.entities
    ensures Packed(TakeMention(ps, g, landing, m), g, landing) && Fills(ps, TakeMention(ps, g, landing, m))
    ensures MentionTaken(TakeMention(ps, g, landing, m), landing, m)
  {
    if m.1 in landing {
      var c := landing[m.1];
      TakeFills(ps, g, landing, c, m.0);
      var qs, rs := Take(ps, g, c, m.0), TakeMention(ps, g, landing, m);
      forall d, a | d in rs && a in rs[d].mentions ensures MentionPacked(rs[d], g, a) {
        assert a in qs[d].mentions ==> MentionPacked(qs[d], g, a);
      }
      forall d, r | d in rs && r in rs[d].relations ensures RelationPacked(rs[d], g, r) {
        assert RelationPacked(qs[d], g, r);
      }
    }
  }

  lemma {:induction false} FillsTwice(ps: map<Channel, Parcel>, qs: map<Channel, Parcel>, rs: map<Channel, Parcel>)
    requires Fills(ps, qs) && Fills(qs, rs)
    ensures Fills(ps, rs)
  {
  }

  /** A mention is in its record's new channel's parcel. */
  predicate MentionTaken(ps: map<Channel, Parcel>, landing: map<Ref, Channel>, m: (nat, Ref)) {
    m.1 in landing ==> landing[m.1] in ps && m in ps[landing[m.1]].mentions
  }

  predicate RelationTaken(ps: map<Channel, Parcel>, landing: map<Ref, Channel>, r: Relation) {
    match LandingOf(r, landing)
    case None => true
    case Some(c) => c in ps && r in ps[c].relations
  }

  lemma {:induction false} MentionsFill(g: Reading, landing: map<Ref, Channel>, n: nat)
    requires n <= |g.mentions| && forall m | m in g.mentions :: m.0 in g.entities
    ensures Packed(MentionsTaken(g, landing, n), g, landing)
    ensures forall i | 0 <= i < n :: MentionTaken(MentionsTaken(g, landing, n), landing, g.mentions[i])
  {
    if n > 0 {
      MentionsFill(g, landing, n - 1);
      TakeMentionFills(MentionsTaken(g, landing, n - 1), g, landing, g.mentions[n-1]);
    }
  }

  /** A parcel exists after the mentions exactly for the channels a mentioned record went to. */
  lemma {:induction false} MentionChannels(g: Reading, landing: map<Ref, Channel>, n: nat, c: Channel)
    requires n <= |g.mentions|
    ensures c in MentionsTaken(g, landing, n) <==>
      exists i :: 0 <= i < n && g.mentions[i].1 in landing && landing[g.mentions[i].1] == c
  {
    if n > 0 {
      MentionChannels(g, landing, n - 1, c);
    }
  }

  lemma {:induction false} LandingIsAChannel(r: Relation, landing: map<Ref, Channel>)
    ensures LandingOf(r, landing).Some? ==> LandingOf(r, landing).value in landing.Values
  {
  }

  lemma {:induction false} TakeRelationFills(ps: map<Channel, Parcel>, g: Reading, landing: map<Ref, Channel>, r: Relation)
    requires Packed(ps, g, landing) && r in g.relations && TakeRelation(ps, g, landing, r).Ok?
    ensures var qs := TakeRelation(ps, g, landing, r).value;
      Packed(qs, g, landing) && Fills(ps, qs) && RelationTaken(qs, landing, r)
  {
    LandingIsAChannel(r, landing);
    match LandingOf(r, landing) {
      case None =>
      case Some(c) =>
        TakeEndsFills(ps, g, landing, c, r);
        PutRelation(TakeEnds(ps, g, c, r), g, landing, c, r);
        FillsTwice(ps, TakeEnds(ps, g, c, r), TakeRelation(ps, g, landing, r).value);
    }
  }

  lemma {:induction false} RelationsFill(g: Reading, landing: map<Ref, Channel>, n: nat)
    requires n <= |g.relations| && forall m | m in g.mentions :: m.0 in g.entities
    requires RelationsTaken(g, landing, n).Ok?
    ensures var ps := RelationsTaken(g, landing, n).value;
      && Packed(ps, g, landing) && Fills(MentionsTaken(g, landing, |g.mentions|), ps)
      && forall i | 0 <= i < n :: RelationTaken(ps, landing, g.relations[i])
  {
    if n == 0 {
      MentionsFill(g, landing, |g.mentions|);
    } else {
      RelationsFill(g, landing, n - 1);
      var ps, qs := RelationsTaken(g, landing, n - 1).value, RelationsTaken(g, landing, n).value;
      TakeRelationFills(ps, g, landing, g.relations[n-1]);
      FillsTwice(MentionsTaken(g, landing, |g.mentions|), ps, qs);
    }
  }

  /** An unanchored relation between entities is in the parcel of every channel it is
      copied to. */
  predicate RelationCopied(ps: map<Channel, Parcel>, g: Reading, c: Channel, r: Relation)
    requires c in ps
  {
    Copies(ps[c], g, r) ==> r in ps[c].relations
  }

  lemma {:induction false} CopyFills(ps: map<Channel, Parcel>, g: Reading, landing: map<Ref, Channel>, r: Relation)
    requires Packed(ps, g, landing) && r in g.relations
    ensures var qs := CopyRelation(ps, g, r);
      && Packed(qs, g, landing) && Fills(ps, qs)
      && (forall c | c in qs :: RelationCopied(qs, g, c, r))
      && (forall c | c in ps :: c in qs && qs[c].entities == ps[c].entities)
  {
    var qs := CopyRelation(ps, g, r);
    forall d, m | d in qs && m in qs[d].mentions ensures MentionPacked(qs[d], g, m) {
      assert MentionPacked(ps[d], g, m);
    }
    forall d, a | d in qs && a in qs[d].relations ensures RelationPacked(qs[d], g, a) {
      assert a in ps[d].relations ==> RelationPacked(ps[d], g, a);
    }
  }

  /** Copying does not change which entities a parcel has, so nothing copied is undone. */
  lemma {:induction false} CopyKeepsCopied(ps: map<Channel, Parcel>, g: Reading, r: Relation, c: Channel, a: Relation)
    requires c in ps && RelationCopied(ps, g, c, a)
    ensures RelationCopied(CopyRelation(ps, g, r), g, c, a)
  {
  }

  lemma {:induction false} CopiesFill(ps: map<Channel, Parcel>, g: Reading, landing: map<Ref, Channel>, n: nat)
    requires n <= |g.relations| && Packed(ps, g, landing)
    ensures Packed(RelationsCopied(ps, g, n), g, landing) && Fills(ps, RelationsCopied(ps, g, n))
  {
    if n > 0 {
      CopiesFill(ps, g, landing, n - 1);
      CopyFills(RelationsCopied(ps, g, n - 1), g, landing, g.relations[n-1]);
      FillsTwice(ps, RelationsCopied(ps, g, n - 1), RelationsCopied(ps, g, n));
    }
  }

  /** Every relation to be copied is in every parcel it is to be copied to. */
  lemma {:induction false} AllCopied(ps: map<Channel, Parcel>, g: Reading, n: nat, c: Channel, i: nat)
    requires i < n <= |g.relations| && c in ps
    ensures c in RelationsCopied(ps, g, n) && RelationCopied(RelationsCopied(ps, g, n), g, c, g.relations[i])
  {
    SameChannels(ps, g, n - 1);
    if i < n - 1 {
      AllCopied(ps, g, n - 1, c, i);
      CopyKeepsCopied(RelationsCopied(ps, g, n - 1), g, g.relations[n-1], c, g.relations[i]);
    }
  }

  lemma {:induction false} SameChannels(ps: map<Channel, Parcel>, g: Reading, n: nat)
    requires n <= |g.relations|
    ensures RelationsCopied(ps, g, n).Keys == ps.Keys
    ensures forall c | c in ps :: RelationsCopied(ps, g, n)[c].entities == ps[c].entities
  {
    if n > 0 {
      SameChannels(ps, g, n - 1);
    }
  }

  // ---- when the pass completes ---------------------------------------------------------------

  /** The channel of a relation that names no entity already has a parcel: a mentioned record
      went there, or an earlier relation that does name one. */
  ghost predicate HasParcel(g: Reading, landing: map<Ref, Channel>, i: nat)
    requires i < |g.relations|
  {
    var c := LandingOf(g.relations[i], landing);
    c.None? || g.relations[i].subject.Thing? || g.relations[i].target.Thing?
    || (exists j :: 0 <= j < |g.mentions| && g.mentions[j].1 in landing && landing[g.mentions[j].1] == c.value)
    || (exists j :: 0 <= j < i && LandingOf(g.relations[j], landing) == c
          && (g.relations[j].subject.Thing? || g.relations[j].target.Thing?))
  }

  lemma {:induction false} RelationChannels(g: Reading, landing: map<Ref, Channel>, n: nat, c: Channel)
    requires n <= |g.relations| && RelationsTaken(g, landing, n).Ok?
    ensures c in RelationsTaken(g, landing, n).value <==>
      || (exists j :: 0 <= j < |g.mentions| && g.mentions[j].1 in landing && landing[g.mentions[j].1] == c)
      || (exists j :: 0 <= j < n && LandingOf(g.relations[j], landing) == Some(c)
            && (g.relations[j].subject.Thing? || g.relations[j].target.Thing?))
  {
    if n == 0 {
      MentionChannels(g, landing, |g.mentions|, c);
    } else {
      RelationChannels(g, landing, n - 1, c);
    }
  }

  lemma {:induction false} EndsBegin(ps: map<Channel, Parcel>, g: Reading, c: Channel, r: Relation)
    ensures c in TakeEnds(ps, g, c, r) <==> c in ps || r.subject.Thing? || r.target.Thing?
  {
  }

  lemma {:induction false} TakesExactlyWhen(g: Reading, landing: map<Ref, Channel>, n: nat)
    requires n < |g.relations| && RelationsTaken(g, landing, n).Ok?
    ensures TakeRelation(RelationsTaken(g, landing, n).value, g, landing, g.relations[n]).Ok? <==> HasParcel(g, landing, n)
  {
    var ps, r := RelationsTaken(g, landing, n).value, g.relations[n];
    if LandingOf(r, landing).Some? {
      var c := LandingOf(r, landing).value;
      EndsBegin(ps, g, c, r);
      RelationChannels(g, landing, n, c);
    }
  }

  /** The pass completes exactly when every relation that names no entity finds its new
      channel's parcel begun; otherwise it stops on a missing key. */
  lemma {:induction false} CompletesExactlyWhen(g: Reading, landing: map<Ref, Channel>, n: nat)
    requires n <= |g.relations|
    ensures RelationsTaken(g, landing, n).Ok? <==> forall i | 0 <= i < n :: HasParcel(g, landing, i)
  {
    if n > 0 {
      CompletesExactlyWhen(g, landing, n - 1);
      if RelationsTaken(g, landing, n - 1).Ok? {
        TakesExactlyWhen(g, landing, n - 1);
      }
    }
  }

  /** One memory re-filed, anchoring a relation between two memories and mentioned by
      nothing: a store like any other, whose reading the pass does not complete on. */
  lemma {:induction false} AnAnchoredPairStopsIt(agent: Agent, from: Channel, to: Channel, verb: Norm, note: Note)
    ensures var r := Relation(Scope(agent, AnyProject, from), Item(Mem(1)), verb, Item(Mem(2)), Some(Mem(1)));
      var s := Store(Names(map[], map[], 0), map[], map[r := note], map[Mem(1) := agent, Mem(2) := agent]);
      && Valid(s) && Reads(s, agent, from, Reading(map[], [], [r]))
      && RelationsTaken(Reading(map[], [], [r]), map[Mem(1) := to], 1).Refused?
  {
    var r := Relation(Scope(agent, AnyProject, from), Item(Mem(1)), verb, Item(Mem(2)), Some(Mem(1)));
    var g := Reading(map[], [], [r]);
    assert !HasParcel(g, map[Mem(1) := to], 0);
    CompletesExactlyWhen(g, map[Mem(1) := to], 1);
  }
}
