/** What following one agent came to does not depend on when it was followed, and stays so while
    the others are (cpersona/associations.py:742-825). */
module Apart {
  import opened Common
  import opened Graph
  import opened Carry
  import opened Rechannel
  import opened Follow
  import opened Elsewhere
  import opened Origins
  import opened Refusals
  import opened Outcome

  // ---- from a store in which the agent had the same ------------------------------------------------

  predicate SameEntity(s: Store, t: Store, e: nat) {
    e in s.names.entities && e in t.names.entities && s.names.entities[e] == t.names.entities[e]
  }

  lemma {:induction false} MovedSince(s: Store, t: Store, u: Store, e: nat)
    requires SameEntity(s, t, e)
    ensures forall c :: EntityMoved(s, u, e, c) == EntityMoved(t, u, e, c)
    ensures forall ref, c :: MentionMoved(s, u, (e, ref), c) == MentionMoved(t, u, (e, ref), c)
    ensures forall n, c :: AliasMoved(s, u, e, n, c) == AliasMoved(t, u, e, n, c)
    ensures forall n, c :: AliasRefused(s, u, e, n, c) == AliasRefused(t, u, e, n, c)
  {
    assert forall h: nat, c :: ImageOf(s, u, e, h, c) == ImageOf(t, u, e, h, c);
  }

  lemma {:induction false} RelationMovedSince(s: Store, t: Store, u: Store, g: Reading, r: Relation, c: Channel)
    requires forall e | e in g.entities :: SameEntity(s, t, e)
    ensures RelationMoved(t, u, g, r, c) ==> RelationMoved(s, u, g, r, c)
  {
    if RelationMoved(t, u, g, r, c) {
      var q :| RelationImage(t, u, g, r, q, c);
      assert RelationImage(s, u, g, r, q, c);
    }
  }

  lemma {:induction false} RelationFollowedSince(s: Store, t: Store, u: Store, g: Reading, r: Relation, landing: map<Ref, Channel>)
    requires forall e | e in g.entities :: SameEntity(s, t, e)
    ensures RelationFollowed(t, u, g, r, landing) ==> RelationFollowed(s, u, g, r, landing)
  {
    forall c ensures RelationMoved(t, u, g, r, c) ==> RelationMoved(s, u, g, r, c) {
      RelationMovedSince(s, t, u, g, r, c);
    }
  }

  lemma {:induction false} ReadAreSame(s: Store, t: Store, g: Reading, agent: Agent, from: Channel)
    requires SamePart(s, t, agent) && Reads(t, agent, from, g)
    ensures forall e | e in g.entities :: SameEntity(s, t, e) && OwnIn(s, e, agent)
  {
    forall e | e in g.entities ensures SameEntity(s, t, e) && OwnIn(s, e, agent) {
      FilesTheSame(t, s, agent, from, e);
      assert OwnIn(t, e, agent) && EntityKept(t, s, e);
    }
  }

  lemma {:induction false} OwnKeptSince(s: Store, t: Store, u: Store, agent: Agent, from: Channel)
    requires SamePart(s, t, agent) && OwnKept(t, u, agent, from)
    ensures OwnKept(s, u, agent, from)
  {
    forall e | OwnIn(s, e, agent) ensures OwnIn(t, e, agent) && SameEntity(s, t, e) {
      assert EntityKept(s, t, e);
    }
  }

  lemma {:induction false} NoMentionLostSince(s: Store, t: Store, u: Store, g: Reading, landing: map<Ref, Channel>, agent: Agent, from: Channel)
    requires SamePart(s, t, agent) && Reads(t, agent, from, g) && NoMentionLost(t, u, g, landing)
    ensures NoMentionLost(s, u, g, landing)
  {
    ReadAreSame(s, t, g, agent, from);
    forall e: nat, ref | e in g.entities && (e, ref) in s.mentions
      ensures (e, ref) in u.mentions || MentionFollowed(s, u, (e, ref), landing)
    {
      MovedSince(s, t, u, e);
    }
  }

  lemma {:induction false} NoAliasLostSince(s: Store, t: Store, u: Store, g: Reading, landing: map<Ref, Channel>, agent: Agent, from: Channel)
    requires SamePart(s, t, agent) && Reads(t, agent, from, g) && NoAliasLost(t, u, g, landing)
    ensures NoAliasLost(s, u, g, landing)
  {
    ReadAreSame(s, t, g, agent, from);
    forall e: nat, n | e in g.entities && (e, n) in s.names.aliases
      ensures (e, n) in u.names.aliases || AliasFollowed(s, u, g, e, n, landing)
    {
      MovedSince(s, t, u, e);
    }
  }

  lemma {:induction false} NoneLostSince(s: Store, t: Store, u: Store, g: Reading, landing: map<Ref, Channel>, agent: Agent, from: Channel)
    requires SamePart(s, t, agent) && Reads(t, agent, from, g) && NoneLost(t, u, g, landing)
    ensures NoneLost(s, u, g, landing)
  {
    NoMentionLostSince(s, t, u, g, landing, agent, from);
    NoAliasLostSince(s, t, u, g, landing, agent, from);
    ReadAreSame(s, t, g, agent, from);
    forall r | r in g.relations ensures r in u.relations || RelationFollowed(s, u, g, r, landing) {
      RelationFollowedSince(s, t, u, g, r, landing);
    }
  }

  lemma {:induction false} MentionsGoneSince(s: Store, t: Store, u: Store, landing: map<Ref, Channel>, agent: Agent, from: Channel)
    requires SamePart(s, t, agent) && MentionsGone(t, u, landing, agent, from)
    ensures MentionsGone(s, u, landing, agent, from)
  {
    forall e: nat, ref | (e, ref) in s.mentions && e in s.names.entities && Filed(s.names.entities[e].scope, agent, from) && ref in landing
      ensures (e, ref) !in u.mentions && MentionMoved(s, u, (e, ref), landing[ref])
    {
      assert OwnIn(s, e, agent) && EntityKept(s, t, e);
      MovedSince(s, t, u, e);
    }
  }

  lemma {:induction false} RelationsGoneSince(s: Store, t: Store, u: Store, g: Reading, landing: map<Ref, Channel>, agent: Agent, from: Channel)
    requires SamePart(s, t, agent) && Reads(t, agent, from, g) && RelationsGone(t, u, g, landing, agent, from)
    ensures RelationsGone(s, u, g, landing, agent, from)
  {
    ReadAreSame(s, t, g, agent, from);
    forall r, c ensures RelationMoved(t, u, g, r, c) ==> RelationMoved(s, u, g, r, c) {
      RelationMovedSince(s, t, u, g, r, c);
    }
  }

  lemma {:induction false} EntitiesArrivedSince(s: Store, t: Store, u: Store, g: Reading, landing: map<Ref, Channel>, agent: Agent, from: Channel)
    requires SamePart(s, t, agent) && Reads(t, agent, from, g) && EntitiesArrived(t, u, g, landing)
    ensures EntitiesArrived(s, u, g, landing)
  {
    ReadAreSame(s, t, g, agent, from);
    forall e, c | e in g.entities && GoesTo(g, landing, e, c)
      ensures EntityMoved(s, u, e, c)
        && forall n | (e, n) in s.names.aliases :: AliasMoved(s, u, e, n, c) || AliasRefused(s, u, e, n, c)
    {
      MovedSince(s, t, u, e);
    }
  }

  lemma {:induction false} EntireSince(s: Store, t: Store, u: Store, g: Reading, landing: map<Ref, Channel>, agent: Agent, e: nat)
    requires SamePart(s, t, agent) && OwnIn(s, e, agent) && Entire(s, u, g, landing, e)
    ensures Entire(t, u, g, landing, e)
  {
    assert EntityKept(s, t, e);
    MovedSince(s, t, u, e);
  }

  lemma {:induction false} EntitiesGoneSince(s: Store, t: Store, u: Store, g: Reading, landing: map<Ref, Channel>, agent: Agent, from: Channel)
    requires SamePart(s, t, agent) && Reads(t, agent, from, g) && EntitiesGone(t, u, g, landing)
    ensures EntitiesGone(s, u, g, landing)
  {
    ReadAreSame(s, t, g, agent, from);
    forall e, c | e in g.entities && GoesTo(g, landing, e, c) && Entire(s, u, g, landing, e) && NamedNoMore(u, g, landing, e)
      ensures e !in u.names.entities
    {
      EntireSince(s, t, u, g, landing, agent, e);
    }
  }

  lemma {:induction false} NoneBefore(s: Store, t: Store, u: Store, agent: Agent, h: nat)
    requires SamePart(s, t, agent) && Valid(t) && Survive(t, u) && OwnIn(u, h, agent)
    ensures h in t.names.entities ==> OwnIn(s, h, agent) && OwnIn(t, h, agent)
    ensures forall n :: (h, n) in t.names.aliases ==> (h, n) in s.names.aliases
    ensures forall ref :: (h, ref) in t.mentions ==> (h, ref) in s.mentions
  {
    if h in t.names.entities {
      assert OwnIn(t, h, agent) && EntityKept(t, s, h);
    } else {
      assert forall ref :: (h, ref) in t.mentions ==> MentionStands(t, h, ref);
    }
  }

  lemma {:induction false} RowBeginsSince(s: Store, t: Store, g: Reading, landing: map<Ref, Channel>, row: Entity)
    requires forall e | e in g.entities :: SameEntity(s, t, e)
    requires EntityBegins(t, g, landing, row)
    ensures EntityBegins(s, g, landing, row)
  {
    var e, c :| e in g.entities && e in t.names.entities && GoesTo(g, landing, e, c) && RowCopied(t.names.entities[e], row, c);
    assert SameEntity(s, t, e);
  }

  lemma {:induction false} AliasBeginsSince(s: Store, t: Store, u: Store, g: Reading, landing: map<Ref, Channel>, agent: Agent,
                                            h: nat, n: Norm, written: string)
    requires SamePart(s, t, agent) && (forall e | e in g.entities :: SameEntity(s, t, e) && OwnIn(s, e, agent))
    requires AliasBegins(t, u, g, landing, h, n, written)
    ensures AliasBegins(s, u, g, landing, h, n, written)
  {
    var e, c :|
      && e in g.entities && GoesTo(g, landing, e, c) && ImageOf(t, u, e, h, c)
      && (e, n) in t.names.aliases && t.names.aliases[(e, n)] == written;
    assert SameEntity(s, t, e) && OwnIn(s, e, agent);
    assert ImageOf(s, u, e, h, c);
  }

  lemma {:induction false} MentionBeginsSince(s: Store, t: Store, u: Store, g: Reading, landing: map<Ref, Channel>, agent: Agent,
                                              h: nat, ref: Ref, note: Note)
    requires SamePart(s, t, agent) && (forall e | e in g.entities :: SameEntity(s, t, e) && OwnIn(s, e, agent))
    requires MentionBegins(t, u, g, landing, h, ref, note)
    ensures MentionBegins(s, u, g, landing, h, ref, note)
  {
    var e :| e in g.entities && (e, ref) in t.mentions && ImageOf(t, u, e, h, landing[ref]) && t.mentions[(e, ref)] == note;
    assert SameEntity(s, t, e) && OwnIn(s, e, agent);
    assert ImageOf(s, u, e, h, landing[ref]);
  }

  lemma {:induction false} RelationBeginsSince(s: Store, t: Store, u: Store, g: Reading, landing: map<Ref, Channel>, agent: Agent,
                                               q: Relation, note: Note)
    requires SamePart(s, t, agent) && (forall e | e in g.entities :: SameEntity(s, t, e)) && q.scope.agent == agent
    requires RelationBegins(t, u, g, landing, q, note)
    ensures RelationBegins(s, u, g, landing, q, note)
  {
    var r, c :|
      && r in g.relations && r in t.relations && DueIn(g, landing, r, c) && RelationImage(t, u, g, r, q, c)
      && t.relations[r] == note;
    assert r.scope.agent == agent;
    assert RelationImage(s, u, g, r, q, c);
  }

  lemma {:induction false} OwnCopiesSince(s: Store, t: Store, u: Store, g: Reading, landing: map<Ref, Channel>, agent: Agent, from: Channel)
    requires SamePart(s, t, agent) && Reads(t, agent, from, g) && Valid(t) && Survive(t, u) && OwnCopies(t, u, g, landing, agent)
    ensures OwnCopies(s, u, g, landing, agent)
  {
    ReadAreSame(s, t, g, agent, from);
    forall h | OwnIn(u, h, agent) && h !in s.names.entities ensures EntityBegins(s, g, landing, u.names.entities[h]) {
      NoneBefore(s, t, u, agent, h);
      RowBeginsSince(s, t, g, landing, u.names.entities[h]);
    }
    forall h: nat, n | OwnIn(u, h, agent) && (h, n) in u.names.aliases && (h, n) !in s.names.aliases
      ensures AliasBegins(s, u, g, landing, h, n, u.names.aliases[(h, n)])
    {
      NoneBefore(s, t, u, agent, h);
      AliasBeginsSince(s, t, u, g, landing, agent, h, n, u.names.aliases[(h, n)]);
    }
    forall h: nat, ref | OwnIn(u, h, agent) && (h, ref) in u.mentions && (h, ref) !in s.mentions
      ensures MentionBegins(s, u, g, landing, h, ref, u.mentions[(h, ref)])
    {
      NoneBefore(s, t, u, agent, h);
      MentionBeginsSince(s, t, u, g, landing, agent, h, ref, u.mentions[(h, ref)]);
    }
    forall q | q in u.relations && q !in s.relations && q.scope.agent == agent
      ensures RelationBegins(s, u, g, landing, q, u.relations[q])
    {
      RelationBeginsSince(s, t, u, g, landing, agent, q, u.relations[q]);
    }
  }

  /** What following an agent came to is told from any store in which it had the same. */
  lemma {:induction false} FollowedSince(s: Store, t: Store, u: Store, g: Reading, landing: map<Ref, Channel>, agent: Agent, from: Channel)
    requires SamePart(s, t, agent) && Reads(t, agent, from, g) && Valid(t) && Survive(t, u)
    requires Followed(t, u, g, landing, agent, from)
    ensures Followed(s, u, g, landing, agent, from)
  {
    if agent == NoAgent {
      PartTwice(s, t, u, agent);
    } else {
      OwnKeptSince(s, t, u, agent, from);
      NoneLostSince(s, t, u, g, landing, agent, from);
      MentionsGoneSince(s, t, u, landing, agent, from);
      RelationsGoneSince(s, t, u, g, landing, agent, from);
      EntitiesArrivedSince(s, t, u, g, landing, agent, from);
      EntitiesGoneSince(s, t, u, g, landing, agent, from);
      OwnCopiesSince(s, t, u, g, landing, agent, from);
    }
  }

  // ---- while another agent is followed --------------------------------------------------------------

  lemma {:induction false} SameImages(s: Store, t: Store, u: Store, e: nat, agent: Agent)
    requires SamePart(t, u, agent) && OwnIn(s, e, agent)
    ensures forall h: nat, c :: ImageOf(s, t, e, h, c) == ImageOf(s, u, e, h, c)
  {
    forall h: nat, c ensures ImageOf(s, t, e, h, c) == ImageOf(s, u, e, h, c) {
      if ImageOf(s, t, e, h, c) {
        assert OwnIn(t, h, agent) && EntityKept(t, u, h);
      }
      if ImageOf(s, u, e, h, c) {
        assert OwnIn(u, h, agent) && EntityKept(u, t, h);
        assert OwnIn(t, h, agent);
      }
    }
  }

  lemma {:induction false} NamedTheSame(t: Store, u: Store, h: nat, n: Norm, agent: Agent)
    requires SamePart(t, u, agent) && OwnIn(t, h, agent)
    ensures h in u.names.entities && u.names.entities[h] == t.names.entities[h] && Named(t.names, h, n) == Named(u.names, h, n)
  {
    assert EntityKept(t, u, h);
  }

  lemma {:induction false} SeenTheSame(t: Store, u: Store, scope: Scope, n: Norm)
    requires SamePart(t, u, scope.agent) && SeenElsewhere(t.names, scope, n)
    ensures SeenElsewhere(u.names, scope, n)
  {
    VisibleScopesAre(scope);
    var a, sc :| sc in VisibleScopes(scope) && Owns(t.names, sc, n, a);
    assert OwnIn(t, a, scope.agent);
    NamedTheSame(t, u, a, n, scope.agent);
    assert Owns(u.names, sc, n, a);
  }

  lemma {:induction false} RefusedTheSame(t: Store, u: Store, h: nat, n: Norm, agent: Agent)
    requires Valid(t) && Valid(u) && SamePart(t, u, agent) && SamePart(u, t, agent) && OwnIn(t, h, agent)
    ensures h in u.names.entities && Declines(t.names, h, n) == Declines(u.names, h, n)
  {
    NamedTheSame(t, u, h, n, agent);
    DeclinesExactlyWhen(t.names, h, n);
    DeclinesExactlyWhen(u.names, h, n);
    if SeenElsewhere(t.names, t.names.entities[h].scope, n) {
      SeenTheSame(t, u, t.names.entities[h].scope, n);
    }
    if SeenElsewhere(u.names, t.names.entities[h].scope, n) {
      SeenTheSame(u, t, t.names.entities[h].scope, n);
    }
  }

  lemma {:induction false} PartBack(t: Store, u: Store, agent: Agent)
    requires SamePart(t, u, agent)
    ensures SamePart(u, t, agent)
  {
    forall e | OwnIn(u, e, agent) ensures OwnIn(t, e, agent) {
      assert EntityKept(u, t, e);
    }
  }

  lemma {:induction false} MovedStays(s: Store, t: Store, u: Store, e: nat, agent: Agent)
    requires Valid(t) && Valid(u) && SamePart(t, u, agent) && OwnIn(s, e, agent)
    ensures forall c :: EntityMoved(s, t, e, c) ==> EntityMoved(s, u, e, c)
    ensures forall ref, c :: MentionMoved(s, t, (e, ref), c) ==> MentionMoved(s, u, (e, ref), c)
    ensures forall n, c :: AliasMoved(s, t, e, n, c) == AliasMoved(s, u, e, n, c)
    ensures forall n, c :: AliasRefused(s, t, e, n, c) ==> AliasRefused(s, u, e, n, c)
  {
    SameImages(s, t, u, e, agent);
    PartBack(t, u, agent);
    assert forall h: nat, c | ImageOf(s, t, e, h, c) :: OwnIn(t, h, agent);
    forall n, c | AliasRefused(s, t, e, n, c) ensures AliasRefused(s, u, e, n, c) {
      var h: nat :| ImageOf(s, t, e, h, c) && Declines(t.names, h, n);
      RefusedTheSame(t, u, h, n, agent);
    }
  }

  lemma {:induction false} RelationMovedStays(s: Store, t: Store, u: Store, g: Reading, r: Relation, c: Channel, agent: Agent)
    requires SamePart(t, u, agent) && (forall e | e in g.entities :: OwnIn(s, e, agent)) && r.scope.agent == agent
    ensures RelationMoved(s, t, g, r, c) ==> RelationMoved(s, u, g, r, c)
  {
    if RelationMoved(s, t, g, r, c) {
      var q :| RelationImage(s, t, g, r, q, c);
      if r.subject.Thing? && r.subject.entity in g.entities {
        SameImages(s, t, u, r.subject.entity, agent);
      }
      if r.target.Thing? && r.target.entity in g.entities {
        SameImages(s, t, u, r.target.entity, agent);
      }
      assert RelationImage(s, u, g, r, q, c);
    }
  }

  lemma {:induction false} RelationFollowedStays(s: Store, t: Store, u: Store, g: Reading, r: Relation, landing: map<Ref, Channel>, agent: Agent)
    requires SamePart(t, u, agent) && (forall e | e in g.entities :: OwnIn(s, e, agent)) && r.scope.agent == agent
    ensures RelationFollowed(s, t, g, r, landing) ==> RelationFollowed(s, u, g, r, landing)
  {
    forall c ensures RelationMoved(s, t, g, r, c) ==> RelationMoved(s, u, g, r, c) {
      RelationMovedStays(s, t, u, g, r, c, agent);
    }
  }

  lemma {:induction false} OwnKeptStays(s: Store, t: Store, u: Store, agent: Agent, from: Channel)
    requires SamePart(t, u, agent) && OwnKept(s, t, agent, from)
    ensures OwnKept(s, u, agent, from)
  {
    forall e | OwnIn(s, e, agent) && s.names.entities[e].scope.channel != from ensures OwnIn(t, e, agent) && EntityKept(s, u, e) {
      assert EntityKept(s, t, e);
      assert OwnIn(t, e, agent) && EntityKept(t, u, e);
    }
  }

  /** An entity the agent had at first is still the agent's wherever it still is. */
  ghost predicate OwnLater(s: Store, t: Store, u: Store, agent: Agent) {
    && Valid(s) && Valid(t) && Valid(u) && Survive(s, t) && Survive(t, u) && SamePart(t, u, agent)
  }

  lemma {:induction false} StillOwn(s: Store, t: Store, u: Store, agent: Agent, e: nat)
    requires OwnLater(s, t, u, agent) && OwnIn(s, e, agent)
    ensures e in t.names.entities ==> OwnIn(t, e, agent)
    ensures e in u.names.entities <==> e in t.names.entities
    ensures forall n :: (e, n) in u.names.aliases <==> (e, n) in t.names.aliases
    ensures forall ref :: (e, ref) in u.mentions <==> (e, ref) in t.mentions
  {
    if e in t.names.entities {
      assert OwnIn(t, e, agent) && EntityKept(t, u, e);
    } else {
      assert e !in u.names.entities;
      assert forall ref :: (e, ref) in u.mentions ==> MentionStands(u, e, ref);
      assert forall ref :: (e, ref) in t.mentions ==> MentionStands(t, e, ref);
    }
  }

  lemma {:induction false} NoMentionLostStays(s: Store, t: Store, u: Store, g: Reading, landing: map<Ref, Channel>, agent: Agent)
    requires OwnLater(s, t, u, agent) && (forall e | e in g.entities :: OwnIn(s, e, agent)) && NoMentionLost(s, t, g, landing)
    ensures NoMentionLost(s, u, g, landing)
  {
    forall e: nat, ref | e in g.entities && (e, ref) in s.mentions
      ensures (e, ref) in u.mentions || MentionFollowed(s, u, (e, ref), landing)
    {
      StillOwn(s, t, u, agent, e);
      MovedStays(s, t, u, e, agent);
    }
  }

  lemma {:induction false} NoAliasLostStays(s: Store, t: Store, u: Store, g: Reading, landing: map<Ref, Channel>, agent: Agent)
    requires OwnLater(s, t, u, agent) && (forall e | e in g.entities :: OwnIn(s, e, agent)) && NoAliasLost(s, t, g, landing)
    ensures NoAliasLost(s, u, g, landing)
  {
    forall e: nat, n | e in g.entities && (e, n) in s.names.aliases
      ensures (e, n) in u.names.aliases || AliasFollowed(s, u, g, e, n, landing)
    {
      StillOwn(s, t, u, agent, e);
      MovedStays(s, t, u, e, agent);
    }
  }

  lemma {:induction false} NoRelationLostStays(s: Store, t: Store, u: Store, g: Reading, landing: map<Ref, Channel>, agent: Agent)
    requires SamePart(t, u, agent) && (forall e | e in g.entities :: OwnIn(s, e, agent)) && NoRelationLost(s, t, g, landing)
    requires forall r | r in g.relations :: r.scope.agent == agent
    ensures NoRelationLost(s, u, g, landing)
  {
    forall r | r in g.relations ensures r in u.relations || RelationFollowed(s, u, g, r, landing) {
      RelationFollowedStays(s, t, u, g, r, landing, agent);
    }
  }

  lemma {:induction false} NoneLostStays(s: Store, t: Store, u: Store, g: Reading, landing: map<Ref, Channel>, agent: Agent, from: Channel)
    requires OwnLater(s, t, u, agent) && Reads(s, agent, from, g) && NoneLost(s, t, g, landing)
    ensures NoneLost(s, u, g, landing)
  {
    assert forall e | e in g.entities :: OwnIn(s, e, agent);
    NoMentionLostStays(s, t, u, g, landing, agent);
    NoRelationLostStays(s, t, u, g, landing, agent);
    NoAliasLostStays(s, t, u, g, landing, agent);
    forall e | e in g.entities ensures e in u.names.entities || exists c :: GoesTo(g, landing, e, c) {
      StillOwn(s, t, u, agent, e);
    }
  }

  lemma {:induction false} MentionsStayGone(s: Store, t: Store, u: Store, landing: map<Ref, Channel>, agent: Agent, from: Channel)
    requires OwnLater(s, t, u, agent) && MentionsGone(s, t, landing, agent, from)
    ensures MentionsGone(s, u, landing, agent, from)
  {
    forall e: nat, ref | (e, ref) in s.mentions && e in s.names.entities && Filed(s.names.entities[e].scope, agent, from) && ref in landing
      ensures (e, ref) !in u.mentions && MentionMoved(s, u, (e, ref), landing[ref])
    {
      StillOwn(s, t, u, agent, e);
      MovedStays(s, t, u, e, agent);
    }
  }

  lemma {:induction false} RelationsStayGone(s: Store, t: Store, u: Store, g: Reading, landing: map<Ref, Channel>, agent: Agent, from: Channel)
    requires SamePart(t, u, agent) && Reads(s, agent, from, g) && RelationsGone(s, t, g, landing, agent, from)
    ensures RelationsGone(s, u, g, landing, agent, from)
  {
    assert forall e | e in g.entities :: OwnIn(s, e, agent);
    forall r: Relation, c | r.scope.agent == agent ensures RelationMoved(s, t, g, r, c) ==> RelationMoved(s, u, g, r, c) {
      RelationMovedStays(s, t, u, g, r, c, agent);
    }
    assert forall r, c | CopiesTo(g, landing, r, c) :: r in g.relations && r.scope.agent == agent;
  }

  lemma {:induction false} EntitiesStayArrived(s: Store, t: Store, u: Store, g: Reading, landing: map<Ref, Channel>, agent: Agent, from: Channel)
    requires OwnLater(s, t, u, agent) && Reads(s, agent, from, g) && EntitiesArrived(s, t, g, landing)
    ensures EntitiesArrived(s, u, g, landing)
  {
    forall e, c | e in g.entities && GoesTo(g, landing, e, c)
      ensures EntityMoved(s, u, e, c)
        && forall n | (e, n) in s.names.aliases :: AliasMoved(s, u, e, n, c) || AliasRefused(s, u, e, n, c)
    {
      MovedStays(s, t, u, e, agent);
    }
  }

  /** What touches another agent's entity is not taken from it by a pass but for its image. */
  lemma {:induction false} TouchedStays(t: Store, u: Store, other: Reading, more: map<Ref, Channel>, next: Agent, from: Channel,
                                        r: Relation, e: nat)
      returns (q: Relation)
    requires Reads(t, next, from, other) && NothingLost(t, u, other, more, next, from)
    requires r in t.relations && Touches(r, Thing(e)) && e !in other.entities
    ensures q in u.relations && Touches(q, Thing(e)) && q.scope.agent == r.scope.agent && (r in u.relations ==> q == r)
    ensures r.scope.agent != next ==> q == r
  {
    q := r;
    if r !in u.relations {
      var c: Channel;
      match LandingOf(r, more) {
        case Some(d) => c := d;
        case None => c :| CopiesTo(other, more, r, c);
      }
      q :| RelationImage(t, u, other, r, q, c);
    }
  }

  lemma {:induction false} NamedNoMoreEarlier(t: Store, u: Store, s: Store, g: Reading, landing: map<Ref, Channel>, agent: Agent, from: Channel,
                                              other: Reading, more: map<Ref, Channel>, next: Agent, e: nat)
    requires Reads(s, agent, from, g) && next != agent && Reads(t, next, from, other) && NothingLost(t, u, other, more, next, from)
    requires SamePart(t, u, agent) && OwnIn(t, e, agent) && NamedNoMore(u, g, landing, e)
    ensures NamedNoMore(t, g, landing, e)
  {
    forall r | r in t.relations && Touches(r, Thing(e)) ensures exists c :: CopiesTo(g, landing, r, c) {
      var q := TouchedStays(t, u, other, more, next, from, r, e);
      var c :| CopiesTo(g, landing, q, c);
      assert q in g.relations && q.scope.agent == agent;
    }
  }

  lemma {:induction false} EntireEarlier(s: Store, t: Store, u: Store, g: Reading, landing: map<Ref, Channel>, agent: Agent, e: nat)
    requires Valid(t) && Valid(u) && SamePart(t, u, agent) && OwnIn(s, e, agent) && Entire(s, u, g, landing, e)
    ensures Entire(s, t, g, landing, e)
  {
    MovedStays(s, t, u, e, agent);
  }

  lemma {:induction false} EntitiesStayGone(s: Store, t: Store, u: Store, g: Reading, landing: map<Ref, Channel>, agent: Agent, from: Channel,
                                            other: Reading, more: map<Ref, Channel>, next: Agent)
    requires OwnLater(s, t, u, agent) && Reads(s, agent, from, g) && EntitiesGone(s, t, g, landing)
    requires next != agent && Reads(t, next, from, other) && NothingLost(t, u, other, more, next, from)
    ensures EntitiesGone(s, u, g, landing)
  {
    forall e, c | e in g.entities && GoesTo(g, landing, e, c) && Entire(s, u, g, landing, e) && NamedNoMore(u, g, landing, e)
      ensures e !in u.names.entities
    {
      StillOwn(s, t, u, agent, e);
      if e in t.names.entities {
        EntireEarlier(s, t, u, g, landing, agent, e);
        NamedNoMoreEarlier(t, u, s, g, landing, agent, from, other, more, next, e);
      }
    }
  }

  lemma {:induction false} SameOwn(t: Store, u: Store, agent: Agent, h: nat)
    requires SamePart(t, u, agent) && OwnIn(u, h, agent)
    ensures OwnIn(t, h, agent) && u.names.entities[h] == t.names.entities[h]
  {
    assert EntityKept(u, t, h);
  }

  lemma {:induction false} AliasBeginsStill(s: Store, t: Store, u: Store, g: Reading, landing: map<Ref, Channel>, agent: Agent,
                                            h: nat, n: Norm, written: string)
    requires SamePart(t, u, agent) && (forall e | e in g.entities :: OwnIn(s, e, agent))
    requires AliasBegins(s, t, g, landing, h, n, written)
    ensures AliasBegins(s, u, g, landing, h, n, written)
  {
    var e, c :|
      && e in g.entities && GoesTo(g, landing, e, c) && ImageOf(s, t, e, h, c)
      && (e, n) in s.names.aliases && s.names.aliases[(e, n)] == written;
    SameImages(s, t, u, e, agent);
    assert ImageOf(s, u, e, h, c);
  }

  lemma {:induction false} MentionBeginsStill(s: Store, t: Store, u: Store, g: Reading, landing: map<Ref, Channel>, agent: Agent,
                                              h: nat, ref: Ref, note: Note)
    requires SamePart(t, u, agent) && (forall e | e in g.entities :: OwnIn(s, e, agent))
    requires MentionBegins(s, t, g, landing, h, ref, note)
    ensures MentionBegins(s, u, g, landing, h, ref, note)
  {
    var e :| e in g.entities && (e, ref) in s.mentions && ImageOf(s, t, e, h, landing[ref]) && s.mentions[(e, ref)] == note;
    SameImages(s, t, u, e, agent);
    assert ImageOf(s, u, e, h, landing[ref]);
  }

  lemma {:induction false} ImageStill(s: Store, t: Store, u: Store, g: Reading, r: Relation, q: Relation, c: Channel, agent: Agent)
    requires SamePart(t, u, agent) && (forall e | e in g.entities :: OwnIn(s, e, agent))
    requires q in u.relations && RelationImage(s, t, g, r, q, c)
    ensures RelationImage(s, u, g, r, q, c)
  {
    if r.subject.Thing? && r.subject.entity in g.entities {
      SameImages(s, t, u, r.subject.entity, agent);
    }
    if r.target.Thing? && r.target.entity in g.entities {
      SameImages(s, t, u, r.target.entity, agent);
    }
  }

  lemma {:induction false} RelationBeginsStill(s: Store, t: Store, u: Store, g: Reading, landing: map<Ref, Channel>, agent: Agent,
                                               q: Relation, note: Note)
    requires SamePart(t, u, agent) && (forall e | e in g.entities :: OwnIn(s, e, agent)) && q in u.relations
    requires RelationBegins(s, t, g, landing, q, note)
    ensures RelationBegins(s, u, g, landing, q, note)
  {
    var r, c :|
      && r in g.relations && r in s.relations && DueIn(g, landing, r, c) && RelationImage(s, t, g, r, q, c)
      && s.relations[r] == note;
    ImageStill(s, t, u, g, r, q, c, agent);
  }

  lemma {:induction false} OwnCopiesStay(s: Store, t: Store, u: Store, g: Reading, landing: map<Ref, Channel>, agent: Agent, from: Channel)
    requires SamePart(t, u, agent) && Reads(s, agent, from, g) && OwnCopies(s, t, g, landing, agent)
    ensures OwnCopies(s, u, g, landing, agent)
  {
    assert forall e | e in g.entities :: OwnIn(s, e, agent);
    forall h | OwnIn(u, h, agent) && h !in s.names.entities ensures EntityBegins(s, g, landing, u.names.entities[h]) {
      SameOwn(t, u, agent, h);
    }
    forall h: nat, n | OwnIn(u, h, agent) && (h, n) in u.names.aliases && (h, n) !in s.names.aliases
      ensures AliasBegins(s, u, g, landing, h, n, u.names.aliases[(h, n)])
    {
      SameOwn(t, u, agent, h);
      AliasBeginsStill(s, t, u, g, landing, agent, h, n, u.names.aliases[(h, n)]);
    }
    forall h: nat, ref | OwnIn(u, h, agent) && (h, ref) in u.mentions && (h, ref) !in s.mentions
      ensures MentionBegins(s, u, g, landing, h, ref, u.mentions[(h, ref)])
    {
      SameOwn(t, u, agent, h);
      MentionBeginsStill(s, t, u, g, landing, agent, h, ref, u.mentions[(h, ref)]);
    }
    forall q | q in u.relations && q !in s.relations && q.scope.agent == agent
      ensures RelationBegins(s, u, g, landing, q, u.relations[q])
    {
      RelationBeginsStill(s, t, u, g, landing, agent, q, u.relations[q]);
    }
  }

  /** What following an agent came to stays so while another is followed. */
  lemma {:induction false} FollowedStays(s: Store, t: Store, u: Store, g: Reading, landing: map<Ref, Channel>, agent: Agent, from: Channel,
                                         other: Reading, more: map<Ref, Channel>, next: Agent)
    requires OwnLater(s, t, u, agent) && Reads(s, agent, from, g) && Followed(s, t, g, landing, agent, from)
    requires next != agent && Reads(t, next, from, other) && NothingLost(t, u, other, more, next, from)
    ensures Followed(s, u, g, landing, agent, from)
  {
    if agent == NoAgent {
      PartTwice(s, t, u, agent);
    } else {
      OwnKeptStays(s, t, u, agent, from);
      NoneLostStays(s, t, u, g, landing, agent, from);
      MentionsStayGone(s, t, u, landing, agent, from);
      RelationsStayGone(s, t, u, g, landing, agent, from);
      EntitiesStayArrived(s, t, u, g, landing, agent, from);
      EntitiesStayGone(s, t, u, g, landing, agent, from, other, more, next);
      OwnCopiesStay(s, t, u, g, landing, agent, from);
    }
  }
}
