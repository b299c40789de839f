/** What a completed pass of `follow_rechannelled` comes to, told by the stores before and after
    it alone (cpersona/associations.py:742-825): what has left the old channel, where it is,
    which aliases were refused, and which entities are gone. */
module Outcome {
  import opened Common
  import opened Graph
  import opened Carry
  import opened Rechannel
  import opened Follow
  import opened Elsewhere
  import opened Undropped
  import opened Origins
  import opened Refusals

  // ---- what is said ---------------------------------------------------------------------------

  ghost predicate EntityMoved(s: Store, t: Store, e: nat, c: Channel) {
    exists h: nat :: ImageOf(s, t, e, h, c)
  }

  /** Each mention of a moved record has left for the record's channel. */
  ghost predicate MentionsGone(s: Store, t: Store, landing: map<Ref, Channel>, agent: Agent, from: Channel) {
    forall e: nat, ref | (e, ref) in s.mentions && e in s.names.entities && Filed(s.names.entities[e].scope, agent, from) && ref in landing ::
      (e, ref) !in t.mentions && MentionMoved(s, t, (e, ref), landing[ref])
  }

  /** So has each relation that follows one, and each that follows none is copied wherever it
      is due. */
  ghost predicate RelationsGone(s: Store, t: Store, g: Reading, landing: map<Ref, Channel>, agent: Agent, from: Channel) {
    && (forall r, ref | r in s.relations && Filed(r.scope, agent, from) && Follows(r, landing, ref) ::
          r !in t.relations && RelationMoved(s, t, g, r, landing[ref]))
    && (forall r, c | CopiesTo(g, landing, r, c) :: RelationMoved(s, t, g, r, c))
  }

  /** Each entity is in every channel it goes to, with each alias it was not refused there. */
  ghost predicate EntitiesArrived(s: Store, t: Store, g: Reading, landing: map<Ref, Channel>) {
    forall e, c | e in g.entities && GoesTo(g, landing, e, c) ::
      EntityMoved(s, t, e, c)
      && forall n | (e, n) in s.names.aliases :: AliasMoved(s, t, e, n, c) || AliasRefused(s, t, e, n, c)
  }

  /** Its aliases are all where it went. */
  ghost predicate Entire(s: Store, t: Store, g: Reading, landing: map<Ref, Channel>, e: nat) {
    forall c, n | GoesTo(g, landing, e, c) && (e, n) in s.names.aliases :: n != Blank && AliasMoved(s, t, e, n, c)
  }

  /** No mention names it, and no relation but such as were copied. */
  ghost predicate NamedNoMore(t: Store, g: Reading, landing: map<Ref, Channel>, e: nat) {
    && (forall ref :: (e, ref) !in t.mentions)
    && (forall r | r in t.relations && Touches(r, Thing(e)) :: exists c :: CopiesTo(g, landing, r, c))
  }

  /** An entity that went somewhere, entire, and that nothing names any more is deleted. */
  ghost predicate EntitiesGone(s: Store, t: Store, g: Reading, landing: map<Ref, Channel>) {
    forall e, c | e in g.entities && GoesTo(g, landing, e, c) && Entire(s, t, g, landing, e) && NamedNoMore(t, g, landing, e) ::
      e !in t.names.entities
  }

  /** What a pass does for an agent that has a name. */
  ghost predicate Done(s: Store, t: Store, g: Reading, landing: map<Ref, Channel>, agent: Agent, from: Channel) {
    && MentionsGone(s, t, landing, agent, from) && RelationsGone(s, t, g, landing, agent, from)
    && EntitiesArrived(s, t, g, landing) && EntitiesGone(s, t, g, landing)
  }

  /** What else the agent has is as it was. */
  ghost predicate OwnKept(s: Store, t: Store, agent: Agent, from: Channel) {
    && (forall e | OwnIn(s, e, agent) && s.names.entities[e].scope.channel != from :: EntityKept(s, t, e))
    && (forall e: nat, n | OwnIn(s, e, agent) && s.names.entities[e].scope.channel != from && (e, n) in s.names.aliases ::
          (e, n) in t.names.aliases)
    && (forall e: nat, ref | OwnIn(s, e, agent) && s.names.entities[e].scope.channel != from && (e, ref) in s.mentions ::
          (e, ref) in t.mentions)
    && (forall r | r in s.relations && r.scope.agent == agent && r.scope.channel != from :: r in t.relations)
  }

  /** And what it had in the old channel is still there or has its image. */
  ghost predicate NoneLost(s: Store, t: Store, g: Reading, landing: map<Ref, Channel>) {
    && NoMentionLost(s, t, g, landing) && NoRelationLost(s, t, g, landing) && NoAliasLost(s, t, g, landing)
    && NoEntityLost(t, g, landing)
  }

  /** Only an entity that went somewhere is ever deleted. */
  ghost predicate NoEntityLost(t: Store, g: Reading, landing: map<Ref, Channel>) {
    forall e | e in g.entities :: e in t.names.entities || exists c :: GoesTo(g, landing, e, c)
  }

  ghost predicate NoMentionLost(s: Store, t: Store, g: Reading, landing: map<Ref, Channel>) {
    forall e: nat, ref | e in g.entities && (e, ref) in s.mentions :: (e, ref) in t.mentions || MentionFollowed(s, t, (e, ref), landing)
  }

  ghost predicate NoRelationLost(s: Store, t: Store, g: Reading, landing: map<Ref, Channel>) {
    forall r | r in g.relations :: r in t.relations || RelationFollowed(s, t, g, r, landing)
  }

  ghost predicate NoAliasLost(s: Store, t: Store, g: Reading, landing: map<Ref, Channel>) {
    forall e: nat, n | e in g.entities && (e, n) in s.names.aliases ::
      (e, n) in t.names.aliases || AliasFollowed(s, t, g, e, n, landing)
  }

  /** What following an agent comes to. The one without a name is not followed. */
  ghost predicate Followed(s: Store, t: Store, g: Reading, landing: map<Ref, Channel>, agent: Agent, from: Channel) {
    if agent == NoAgent then SamePart(s, t, agent)
    else
      && OwnKept(s, t, agent, from) && NoneLost(s, t, g, landing) && Done(s, t, g, landing, agent, from)
      && OwnCopies(s, t, g, landing, agent)
  }

  // ---- what a pass of a named agent comes to -----------------------------------------------------

  /** All that is known when the carrying is done and the old channel settled. */
  ghost predicate Ends(f: Following, s: Store, t: Store, g: Reading, landing: map<Ref, Channel>, ps: map<Channel, Parcel>,
                       agent: Agent, from: Channel) {
    && Valid(s) && Valid(f.store) && Grows(s, f.store) && Reads(s, agent, from, g) && from !in landing.Values
    && Plans(ps, g, landing) && !f.lost && ParcelsMoved(f, s, g, ps)
    && (forall c | c in ps :: TriedIn(f, s, ps, c))
    && (forall e | e in f.incomplete :: exists c :: LostIn(f, s, ps, e, c))
    && Settles(f, s, t, g, landing, ps, agent, from) && PartOf(t, f.store)
    && t == Settle(f, g, landing, ps, s.names.last)
  }

  lemma {:induction false} PassEnds(s: Store, t: Store, g: Reading, landing: map<Ref, Channel>, now: int,
                                    run: seq<Following>, order: seq<Channel>, agent: Agent, from: Channel)
    requires Valid(s) && Reads(s, agent, from, g) && from !in landing.Values && agent != NoAgent
    requires Passes(s, t, g, landing, now, run, order)
    ensures Ends(run[|order|], s, t, g, landing, Planned(g, landing).value, agent, from)
  {
    var ps, f := Planned(g, landing).value, run[|order|];
    PlannedHolds(s, g, landing, agent, from);
    CarryAllKeeps(run, s, g, ps, order, now, |order|);
    NeverLost(run, s, g, ps, order, now, |order|, agent, from);
    CarriedHaveMoved(run, s, g, ps, order, now, agent, from);
    SettleSettles(f, s, g, landing, ps, s.names.last, agent, from);
    SettledIsPart(f, g, landing, ps, s.names.last);
    AllTried(run, s, g, ps, order, now, |order|, agent, from);
    forall c | c in ps ensures TriedIn(f, s, ps, c) {
      var i :| 0 <= i < |order| && order[i] == c;
    }
  }

  lemma {:induction false} MentionsAreGone(f: Following, s: Store, t: Store, g: Reading, landing: map<Ref, Channel>,
                                           ps: map<Channel, Parcel>, agent: Agent, from: Channel)
    requires Ends(f, s, t, g, landing, ps, agent, from)
    ensures MentionsGone(s, t, landing, agent, from)
  {
    forall e: nat, ref | (e, ref) in s.mentions && e in s.names.entities && Filed(s.names.entities[e].scope, agent, from) && ref in landing
      ensures (e, ref) !in t.mentions && MentionMoved(s, t, (e, ref), landing[ref])
    {
      assert (e, ref) in GoneMentions(g, landing);
      MentionNotLost(f, s, t, g, landing, ps, (e, ref), agent, from);
    }
  }

  lemma {:induction false} RelationsAreGone(f: Following, s: Store, t: Store, g: Reading, landing: map<Ref, Channel>,
                                            ps: map<Channel, Parcel>, agent: Agent, from: Channel)
    requires Ends(f, s, t, g, landing, ps, agent, from)
    ensures RelationsGone(s, t, g, landing, agent, from)
  {
    forall r, ref | r in s.relations && Filed(r.scope, agent, from) && Follows(r, landing, ref)
      ensures r !in t.relations && RelationMoved(s, t, g, r, landing[ref])
    {
      LandsWhereItFollows(r, landing, landing[ref]);
      assert r in GoneRelations(g, landing);
      CopiedHasFollowed(f, s, t, g, landing, ps, r, agent, from);
    }
    forall r, c | CopiesTo(g, landing, r, c) ensures RelationMoved(s, t, g, r, c) {
      PlannedCopies(ps, g, landing, r, c);
      PackedHasMoved(f, s, t, g, landing, ps, r, c, agent, from);
    }
  }

  /** A refusal stays one in the settled store, unless the entity took all its aliases along. */
  lemma {:induction false} RefusalSettles(f: Following, s: Store, t: Store, g: Reading, landing: map<Ref, Channel>,
                                          ps: map<Channel, Parcel>, agent: Agent, from: Channel, e: nat, h: nat, n: Norm, c: Channel)
    requires Ends(f, s, t, g, landing, ps, agent, from) && e in g.entities && e in f.incomplete && c != from
    requires (e, n) in s.names.aliases && ImageOf(s, f.store, e, h, c) && ImageOf(s, t, e, h, c) && Declines(f.store.names, h, n)
    ensures Declines(t.names, h, n)
  {
    var x, y, scope := f.store.names, t.names, t.names.entities[h].scope;
    DeclinesExactlyWhen(x, h, n);
    DeclinesExactlyWhen(y, h, n);
    if n != Blank {
      VisibleScopesAre(scope);
      var a, sc :| sc in VisibleScopes(scope) && Owns(x, sc, n, a);
      assert Filed(s.names.entities[e].scope, agent, from) && EntityKept(f.store, t, e);
      if Filed(x.entities[a].scope, agent, from) {
        assert Owns(y, s.names.entities[e].scope, n, e);
      } else {
        assert EntityKept(f.store, t, a);
        assert Owns(y, sc, n, a);
      }
    }
  }

  lemma {:induction false} AliasArrives(f: Following, s: Store, t: Store, g: Reading, landing: map<Ref, Channel>,
                                        ps: map<Channel, Parcel>, agent: Agent, from: Channel, e: nat, h: nat, n: Norm, c: Channel)
    requires Ends(f, s, t, g, landing, ps, agent, from) && e in g.entities && GoesTo(g, landing, e, c) && c in ps && e in ps[c].entities
    requires c != from && (e, n) in s.names.aliases
    requires ImageOf(s, f.store, e, h, c) && ImageOf(s, t, e, h, c) && Settled(f.store.names, h, n)
    ensures AliasMoved(s, t, e, n, c) || AliasRefused(s, t, e, n, c)
  {
    if e !in f.incomplete {
      AliasHasFollowed(f, s, t, g, landing, ps, e, n, agent, from);
    } else if (h, n) !in f.store.names.aliases {
      RefusalSettles(f, s, t, g, landing, ps, agent, from, e, h, n, c);
    }
  }

  lemma {:induction false} EntitiesHaveArrived(f: Following, s: Store, t: Store, g: Reading, landing: map<Ref, Channel>,
                                               ps: map<Channel, Parcel>, agent: Agent, from: Channel)
    requires Ends(f, s, t, g, landing, ps, agent, from)
    ensures EntitiesArrived(s, t, g, landing)
  {
    forall e, c | e in g.entities && GoesTo(g, landing, e, c)
      ensures EntityMoved(s, t, e, c)
        && forall n | (e, n) in s.names.aliases :: AliasMoved(s, t, e, n, c) || AliasRefused(s, t, e, n, c)
    {
      PlannedEntities(ps, g, landing, e, c);
      LandsSomewhere(g, landing, e, c);
      assert TriedIn(f, s, ps, c);
      var h: nat :| ImageOf(s, f.store, e, h, c) && AllSettled(s, f.store, e, h);
      ImageStays(s, f.store, t, e, h, c, agent, from);
      forall n | (e, n) in s.names.aliases ensures AliasMoved(s, t, e, n, c) || AliasRefused(s, t, e, n, c) {
        AliasArrives(f, s, t, g, landing, ps, agent, from, e, h, n, c);
      }
    }
  }

  // ---- which entities are gone ---------------------------------------------------------------------

  ghost predicate StillNamed(t: Store, e: nat, copied: set<Relation>) {
    || (exists k :: k in t.mentions && k.0 == e)
    || (exists r :: r in t.relations && Touches(r, Thing(e)) && r !in copied)
  }

  lemma {:induction false} NotUnnamed(t: Store, e: nat, copied: set<Relation>)
    ensures Unnamed(t, e, copied) <==> !StillNamed(t, e, copied)
  {
  }

  /** Deleting what nothing names leaves named what was. */
  lemma {:induction false} NamedStays(t: Store, m: nat, e: nat, copied: set<Relation>)
    requires Unnamed(t, m, copied) && StillNamed(t, e, copied)
    ensures StillNamed(WithoutEntity(t, m), e, copied)
  {
    var u := WithoutEntity(t, m);
    if k :| k in t.mentions && k.0 == e {
      assert k in u.mentions;
    } else {
      var r :| r in t.relations && Touches(r, Thing(e)) && r !in copied;
      assert r in u.relations;
    }
  }

  /** A candidate is deleted unless something still names it. */
  lemma {:induction false} PrunedTakes(s: Store, n: nat, candidates: set<nat>, copied: set<Relation>, e: nat)
    requires e < n && e in candidates
    ensures var t := Pruned(s, n, candidates, copied); e in t.names.entities ==> StillNamed(t, e, copied)
  {
    var m := n - 1;
    var t := Pruned(s, m, candidates, copied);
    NotUnnamed(t, e, copied);
    if e < m {
      PrunedTakes(s, m, candidates, copied, e);
      if Unnamed(t, m, copied) && e in t.names.entities {
        NamedStays(t, m, e, copied);
      }
    }
  }

  lemma {:induction false} NotRefusedThere(s: Store, x: Store, t: Store, e: nat, n: Norm, c: Channel)
    requires ValidNames(x.names) && PartOf(t, x) && n != Blank && AliasMoved(s, t, e, n, c)
    ensures !AliasRefused(s, x, e, n, c)
  {
    var there: nat :| ImageOf(s, t, e, there, c) && (there, n) in t.names.aliases;
    assert ImageOf(s, x, e, there, c);
    forall h: nat | ImageOf(s, x, e, h, c) ensures !Declines(x.names, h, n) {
      assert h == there;
      DeclinesExactlyWhen(x.names, h, n);
    }
  }

  lemma {:induction false} EntireLostNone(f: Following, s: Store, t: Store, g: Reading, landing: map<Ref, Channel>,
                                          ps: map<Channel, Parcel>, e: nat, d: Channel)
    requires Plans(ps, g, landing) && ValidNames(f.store.names) && PartOf(t, f.store) && Entire(s, t, g, landing, e)
    ensures !LostIn(f, s, ps, e, d)
  {
    if LostIn(f, s, ps, e, d) {
      PlannedEntities(ps, g, landing, e, d);
      var n :| (e, n) in s.names.aliases && AliasRefused(s, f.store, e, n, d);
      NotRefusedThere(s, f.store, t, e, n, d);
    }
  }

  /** An entity all of whose aliases arrived was not reported incomplete. */
  lemma {:induction false} EntireIsComplete(f: Following, s: Store, t: Store, g: Reading, landing: map<Ref, Channel>,
                                            ps: map<Channel, Parcel>, e: nat)
    requires Plans(ps, g, landing) && ValidNames(f.store.names) && PartOf(t, f.store) && Entire(s, t, g, landing, e)
    requires e in f.incomplete ==> exists c :: LostIn(f, s, ps, e, c)
    ensures e !in f.incomplete
  {
    if e in f.incomplete {
      var d :| LostIn(f, s, ps, e, d);
      EntireLostNone(f, s, t, g, landing, ps, e, d);
    }
  }

  lemma {:induction false} EntitiesAreGone(f: Following, s: Store, t: Store, g: Reading, landing: map<Ref, Channel>,
                                           ps: map<Channel, Parcel>, agent: Agent, from: Channel)
    requires Ends(f, s, t, g, landing, ps, agent, from)
    ensures EntitiesGone(s, t, g, landing)
  {
    forall e, c | e in g.entities && GoesTo(g, landing, e, c) && Entire(s, t, g, landing, e) && NamedNoMore(t, g, landing, e)
      ensures e !in t.names.entities
    {
      PlannedEntities(ps, g, landing, e, c);
      EntireIsComplete(f, s, t, g, landing, ps, e);
      var candidates, copied := CarriedEntities(ps) - f.incomplete, CopiedRelations(ps, g, landing);
      PrunedTakes(Cleared(f.store, GoneMentions(g, landing), GoneRelations(g, landing)), s.names.last + 1, candidates, copied, e);
      NotNamed(t, g, landing, ps, e);
    }
  }

  lemma {:induction false} OnlyCarriedAreGone(f: Following, s: Store, t: Store, g: Reading, landing: map<Ref, Channel>,
                                              ps: map<Channel, Parcel>, agent: Agent, from: Channel)
    requires Ends(f, s, t, g, landing, ps, agent, from)
    ensures NoEntityLost(t, g, landing)
  {
    forall e | e in g.entities && e !in t.names.entities ensures exists c :: GoesTo(g, landing, e, c) {
      var cleared := Cleared(f.store, GoneMentions(g, landing), GoneRelations(g, landing));
      assert e !in CarriedEntities(ps) - f.incomplete ==> EntityKept(cleared, t, e);
      var c :| c in ps && e in ps[c].entities;
      PlannedEntities(ps, g, landing, e, c);
    }
  }

  lemma {:induction false} NotNamed(t: Store, g: Reading, landing: map<Ref, Channel>, ps: map<Channel, Parcel>, e: nat)
    requires Plans(ps, g, landing) && NamedNoMore(t, g, landing, e)
    ensures !StillNamed(t, e, CopiedRelations(ps, g, landing))
  {
    forall k | k in t.mentions ensures k.0 != e {
      assert (k.0, k.1) in t.mentions;
    }
    forall r | r in t.relations && Touches(r, Thing(e)) ensures r in CopiedRelations(ps, g, landing) {
      var c :| CopiesTo(g, landing, r, c);
      PlannedCopies(ps, g, landing, r, c);
    }
  }

  lemma {:induction false} PassIsDone(s: Store, t: Store, g: Reading, landing: map<Ref, Channel>, now: int,
                                      run: seq<Following>, order: seq<Channel>, agent: Agent, from: Channel)
    requires Valid(s) && Reads(s, agent, from, g) && from !in landing.Values && agent != NoAgent
    requires Passes(s, t, g, landing, now, run, order)
    ensures Done(s, t, g, landing, agent, from) && NoEntityLost(t, g, landing)
  {
    var ps, f := Planned(g, landing).value, run[|order|];
    PassEnds(s, t, g, landing, now, run, order, agent, from);
    MentionsAreGone(f, s, t, g, landing, ps, agent, from);
    RelationsAreGone(f, s, t, g, landing, ps, agent, from);
    EntitiesHaveArrived(f, s, t, g, landing, ps, agent, from);
    EntitiesAreGone(f, s, t, g, landing, ps, agent, from);
    OnlyCarriedAreGone(f, s, t, g, landing, ps, agent, from);
  }

  lemma {:induction false} NothingElse(s: Store, t: Store, g: Reading, landing: map<Ref, Channel>, agent: Agent, from: Channel)
    requires Reads(s, agent, from, g) && NothingLost(s, t, g, landing, agent, from)
    ensures OwnKept(s, t, agent, from)
    ensures NoMentionLost(s, t, g, landing) && NoRelationLost(s, t, g, landing) && NoAliasLost(s, t, g, landing)
  {
    assert forall e | OwnIn(s, e, agent) && s.names.entities[e].scope.channel != from :: !Filed(s.names.entities[e].scope, agent, from);
    assert forall r: Relation | r.scope.channel != from :: !Filed(r.scope, agent, from);
  }

  lemma {:induction false} PassCopies(s: Store, t: Store, g: Reading, landing: map<Ref, Channel>, now: int,
                                      run: seq<Following>, order: seq<Channel>, agent: Agent, from: Channel)
    requires Valid(s) && Reads(s, agent, from, g) && from !in landing.Values && agent != NoAgent
    requires Passes(s, t, g, landing, now, run, order)
    ensures OwnCopies(s, t, g, landing, agent)
  {
    PassOnlyCopies(s, t, g, landing, now, run, order, agent, from);
  }

  /** A completed pass follows its agent. */
  lemma {:induction false} PassFollows(s: Store, t: Store, g: Reading, landing: map<Ref, Channel>, now: int,
                                       run: seq<Following>, order: seq<Channel>, agent: Agent, from: Channel)
    requires Valid(s) && Reads(s, agent, from, g) && from !in landing.Values
    requires Passes(s, t, g, landing, now, run, order)
    ensures Followed(s, t, g, landing, agent, from)
  {
    if agent == NoAgent {
      NamelessKeepsAll(s, t, g, landing, now, run, order, from);
      SamePartSelf(s, agent);
    } else {
      PassLosesNothing(s, t, g, landing, now, run, order, agent, from);
      NothingElse(s, t, g, landing, agent, from);
      PassIsDone(s, t, g, landing, now, run, order, agent, from);
      PassCopies(s, t, g, landing, now, run, order, agent, from);
    }
  }
}
