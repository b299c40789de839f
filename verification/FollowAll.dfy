/** Reading an agent's declarations (cpersona/associations.py, `read_graph`), and following
    the re-filed records of every agent, one after another (`follow_rechannelled`). */
module FollowAll {
  import opened Common
  import opened Graph
  import opened Carry
  import opened Rechannel
  import opened Follow
  import opened Elsewhere
  import opened Outcome
  import opened Apart

  // ---- reading ----------------------------------------------------------------------------

  method ReadAliases(db: GraphDb, id: nat) returns (aliases: seq<Option<Term>>)
    ensures forall i | 0 <= i < |aliases| :: aliases[i].Some?
    ensures forall n | (id, n) in db.aliases :: Some(Term(db.aliases[(id, n)], n)) in aliases
    ensures forall a | a in aliases && a.Some? ::
      (id, a.value.normalized) in db.aliases && db.aliases[(id, a.value.normalized)] == a.value.written
  {
    aliases := [];
    var todo := set k | k in db.aliases && k.0 == id;
    while todo != {}
      invariant forall k | k in todo :: k in db.aliases && k.0 == id
      invariant forall i | 0 <= i < |aliases| :: aliases[i].Some?
      invariant forall n | (id, n) in db.aliases :: (id, n) in todo || Some(Term(db.aliases[(id, n)], n)) in aliases
      invariant forall a | a in aliases && a.Some? ::
        (id, a.value.normalized) in db.aliases && db.aliases[(id, a.value.normalized)] == a.value.written
      decreases todo
    {
      var k :| k in todo;
      assert k == (id, k.1);
      aliases, todo := aliases + [Some(Term(db.aliases[k], k.1))], todo - {k};
    }
  }

  method ReadEntities(db: GraphDb, agent: Agent, from: Channel) returns (read: map<nat, EntityRecord>)
    ensures forall id :: id in read <==> id in db.entities && Filed(db.entities[id].scope, agent, from)
    ensures forall id | id in read :: Describes(db.Now().names, id, read[id])
  {
    read := map[];
    var todo := set id | id in db.entities && Filed(db.entities[id].scope, agent, from);
    while todo != {}
      invariant forall id :: id in todo || id in read <==> id in db.entities && Filed(db.entities[id].scope, agent, from)
      invariant forall id | id in read :: id in db.entities && Describes(db.Now().names, id, read[id])
      decreases todo
    {
      var id :| id in todo;
      var aliases := ReadAliases(db, id);
      var e := db.entities[id];
      read := read[id := EntityRecord(id, e.scope, Some(e.name), Some(e.note.declaredBy), Some(e.note.at), aliases)];
      todo := todo - {id};
    }
  }

  method Listed<T(==)>(s: set<T>) returns (q: seq<T>)
    ensures forall x :: x in q <==> x in s
  {
    q := [];
    var todo := s;
    while todo != {}
      invariant todo <= s && forall x :: x in q || x in todo <==> x in s
      decreases todo
    {
      var x :| x in todo;
      q, todo := q + [x], todo - {x};
    }
  }

  /** Of the relation table in id order, what an agent filed in a channel. */
  function RelationsIn(table: seq<Relation>, n: nat, relations: map<Relation, Note>, agent: Agent, from: Channel): (rs: seq<Relation>)
    requires n <= |table|
    ensures forall r :: r in rs <==> r in table[..n] && r in relations && Filed(r.scope, agent, from)
  {
    if n == 0 then []
    else
      var rs := RelationsIn(table, n - 1, relations, agent, from);
      var r := table[n-1];
      assert table[..n] == table[..n-1] + [r];
      if r in relations && Filed(r.scope, agent, from) then rs + [r] else rs
  }

  method ReadRelations(db: GraphDb, table: seq<Relation>, agent: Agent, from: Channel) returns (rs: seq<Relation>)
    ensures rs == RelationsIn(table, |table|, db.relations, agent, from)
  {
    rs := [];
    var n := 0;
    while n < |table|
      invariant 0 <= n <= |table| && rs == RelationsIn(table, n, db.relations, agent, from)
    {
      if table[n] in db.relations && Filed(table[n].scope, agent, from) {
        rs := rs + [table[n]];
      }
      n := n + 1;
    }
  }

  /** The rows of the relation table in id order; what is written later comes after them. */
  ghost predicate TableOf(table: seq<Relation>, s: Store, agent: Agent, from: Channel) {
    forall r | r in s.relations && Filed(r.scope, agent, from) :: r in table
  }

  /** What one agent declared in one channel, the relations in id order. */
  method ReadGraph(db: GraphDb, table: seq<Relation>, agent: Agent, from: Channel) returns (g: Reading)
    requires TableOf(table, db.Now(), agent, from)
    ensures Reads(db.Now(), agent, from, g)
    ensures g.relations == RelationsIn(table, |table|, db.relations, agent, from)
  {
    var entities := ReadEntities(db, agent, from);
    var mentions := Listed(set k | k in db.mentions && k.0 in entities);
    var relations := ReadRelations(db, table, agent, from);
    assert table[..|table|] == table;
    g := Reading(entities, mentions, relations);
  }

  // ---- where each agent's records went --------------------------------------------------------

  /** The records whose channel changed: whose each is, and where it went. */
  type Moves = map<Ref, (Agent, Channel)>

  /** Where an agent's re-filed records went. */
  function LandingFor(moved: Moves, from: Channel, agent: Agent): map<Ref, Channel> {
    map ref | ref in moved && moved[ref].0 == agent && moved[ref].1 != from :: moved[ref].1
  }

  lemma {:induction false} LandsElsewhere(moved: Moves, from: Channel, agent: Agent)
    ensures from !in LandingFor(moved, from, agent).Values
    ensures forall ref :: ref in LandingFor(moved, from, agent) <==> ref in moved && moved[ref].0 == agent && moved[ref].1 != from
    ensures forall ref | ref in LandingFor(moved, from, agent) :: moved[ref] == (agent, LandingFor(moved, from, agent)[ref])
  {
  }

  /** The moves, an agent's apart from another's. */
  ghost predicate Grouped(landing: map<Agent, map<Ref, Channel>>, moved: Moves, from: Channel) {
    && (forall a :: a in landing <==> LandingFor(moved, from, a) != map[])
    && (forall a | a in landing :: landing[a] == LandingFor(moved, from, a))
  }

  lemma {:induction false} OneMoreMove(moved: Moves, ref: Ref, agent: Agent, channel: Channel, from: Channel, a: Agent)
    requires ref !in moved
    ensures LandingFor(moved[ref := (agent, channel)], from, a) ==
      if agent == a && channel != from then LandingFor(moved, from, a)[ref := channel] else LandingFor(moved, from, a)
  {
  }

  method AddMove(landing: map<Agent, map<Ref, Channel>>, ghost moved: Moves, ref: Ref, agent: Agent, channel: Channel, from: Channel)
      returns (now: map<Agent, map<Ref, Channel>>)
    requires Grouped(landing, moved, from) && ref !in moved
    ensures Grouped(now, moved[ref := (agent, channel)], from)
  {
    now := landing;
    if channel != from {
      var sofar := if agent in landing then landing[agent] else map[];
      now := landing[agent := sofar[ref := channel]];
    }
    forall a ensures a in now <==> LandingFor(moved[ref := (agent, channel)], from, a) != map[]
      ensures a in now ==> now[a] == LandingFor(moved[ref := (agent, channel)], from, a)
    {
      OneMoreMove(moved, ref, agent, channel, from, a);
      assert agent == a && channel != from ==> ref in LandingFor(moved[ref := (agent, channel)], from, a);
    }
  }

  method ByAgent(moved: Moves, from: Channel) returns (landing: map<Agent, map<Ref, Channel>>)
    ensures Grouped(landing, moved, from)
  {
    landing := map[];
    ghost var done: Moves := map[];
    var todo := moved.Keys;
    while todo != {}
      invariant todo <= moved.Keys && done == moved - todo && Grouped(landing, done, from)
      decreases todo
    {
      var ref :| ref in todo;
      landing := AddMove(landing, done, ref, moved[ref].0, moved[ref].1, from);
      todo, done := todo - {ref}, done[ref := moved[ref]];
      assert moved[ref] == (moved[ref].0, moved[ref].1);
    }
    assert done == moved;
  }

  // ---- what following them all comes to ----------------------------------------------------------

  /** What one agent had declared in the old channel has followed its records. */
  ghost predicate AgentFollowed(s: Store, t: Store, moved: Moves, from: Channel, readings: map<Agent, Reading>, a: Agent) {
    a in readings && Reads(s, a, from, readings[a]) && Followed(s, t, readings[a], LandingFor(moved, from, a), a, from)
  }

  /** After the passes of these agents each of them is followed, and what any other agent has is
      as it was. */
  ghost predicate AllFollowed(s: Store, t: Store, moved: Moves, from: Channel, agents: set<Agent>, readings: map<Agent, Reading>) {
    && Valid(t) && Survive(s, t)
    && (forall a | a in agents :: AgentFollowed(s, t, moved, from, readings, a))
    && (forall a | a !in agents :: SamePart(s, t, a))
  }

  lemma {:induction false} SurviveTwice(s: Store, t: Store, u: Store)
    requires Survive(s, t) && Survive(t, u)
    ensures Survive(s, u)
  {
  }

  lemma {:induction false} NextIsFollowed(s: Store, t: Store, u: Store, g: Reading, moved: Moves, from: Channel,
                                          readings: map<Agent, Reading>, next: Agent, now: int, run: seq<Following>, order: seq<Channel>)
    requires Valid(t) && Survive(t, u) && SamePart(s, t, next) && Reads(t, next, from, g)
    requires Passes(t, u, g, LandingFor(moved, from, next), now, run, order)
    ensures AgentFollowed(s, u, moved, from, readings[next := g], next)
  {
    LandsElsewhere(moved, from, next);
    PassFollows(t, u, g, LandingFor(moved, from, next), now, run, order, next, from);
    FollowedSince(s, t, u, g, LandingFor(moved, from, next), next, from);
    ReadsTheSame(s, t, next, from, g);
  }

  lemma {:induction false} EarlierStayFollowed(s: Store, t: Store, u: Store, g: Reading, moved: Moves, from: Channel,
                                               readings: map<Agent, Reading>, a: Agent, next: Agent)
    requires OwnLater(s, t, u, a) && AgentFollowed(s, t, moved, from, readings, a) && a != next
    requires Reads(t, next, from, g) && NothingLost(t, u, g, LandingFor(moved, from, next), next, from)
    ensures AgentFollowed(s, u, moved, from, readings[next := g], a)
  {
    FollowedStays(s, t, u, readings[a], LandingFor(moved, from, a), a, from, g, LandingFor(moved, from, next), next);
  }

  lemma {:induction false} OthersStay(s: Store, t: Store, u: Store, g: Reading, moved: Moves, from: Channel, agents: set<Agent>,
                                      readings: map<Agent, Reading>, next: Agent)
    requires Valid(s) && Valid(t) && AllFollowed(s, t, moved, from, agents, readings) && Reads(t, next, from, g) && next !in agents
    requires Valid(u) && Survive(t, u) && NothingLost(t, u, g, LandingFor(moved, from, next), next, from)
    requires forall a | a != next :: SamePart(t, u, a)
    ensures forall a | a in agents :: AgentFollowed(s, u, moved, from, readings[next := g], a)
    ensures forall a | a !in agents && a != next :: SamePart(s, u, a)
  {
    forall a | a in agents ensures AgentFollowed(s, u, moved, from, readings[next := g], a) {
      EarlierStayFollowed(s, t, u, g, moved, from, readings, a, next);
    }
    forall a | a !in agents && a != next ensures SamePart(s, u, a) {
      PartTwice(s, t, u, a);
    }
  }

  /** One more agent followed leaves those before it followed and the others untouched. */
  lemma {:induction false} OneMoreFollowed(s: Store, t: Store, u: Store, g: Reading, moved: Moves, from: Channel, agents: set<Agent>,
                                           readings: map<Agent, Reading>, next: Agent, now: int, run: seq<Following>, order: seq<Channel>)
    requires Valid(s) && Valid(t) && AllFollowed(s, t, moved, from, agents, readings) && Reads(t, next, from, g) && next !in agents
    requires Passes(t, u, g, LandingFor(moved, from, next), now, run, order)
    ensures AllFollowed(s, u, moved, from, agents + {next}, readings[next := g])
  {
    LandsElsewhere(moved, from, next);
    PassLosesNothing(t, u, g, LandingFor(moved, from, next), now, run, order, next, from);
    PassAdds(t, u, g, LandingFor(moved, from, next), now, run, order, next, from);
    SurviveTwice(s, t, u);
    NextIsFollowed(s, t, u, g, moved, from, readings, next, now, run, order);
    forall a | a != next ensures SamePart(t, u, a) {
      OthersUntouched(t, u, next, a, from);
    }
    OthersStay(s, t, u, g, moved, from, agents, readings, next);
  }

  // ---- when the call completes --------------------------------------------------------------------

  /** The i-th relation an agent filed in the old channel finds a parcel where it lands: it
      names an entity, or some mentioned record went there, or an earlier relation does. */
  ghost predicate LandsInAParcel(s: Store, rs: seq<Relation>, agent: Agent, from: Channel, landing: map<Ref, Channel>, i: nat)
    requires i < |rs|
  {
    var c := LandingOf(rs[i], landing);
    c.None? || rs[i].subject.Thing? || rs[i].target.Thing?
    || (exists e, ref :: (e, ref) in s.mentions && e in s.names.entities && Filed(s.names.entities[e].scope, agent, from)
          && ref in landing && landing[ref] == c.value)
    || (exists j :: 0 <= j < i && LandingOf(rs[j], landing) == c && (rs[j].subject.Thing? || rs[j].target.Thing?))
  }

  /** An agent's pass completes: what a caller can check before anything is written. */
  ghost predicate PassCompletes(s: Store, table: seq<Relation>, agent: Agent, from: Channel, landing: map<Ref, Channel>) {
    var rs := RelationsIn(table, |table|, s.relations, agent, from);
    forall i | 0 <= i < |rs| :: LandsInAParcel(s, rs, agent, from, landing, i)
  }

  lemma {:induction false} CompletesAsStored(s: Store, g: Reading, table: seq<Relation>, agent: Agent, from: Channel,
                                             landing: map<Ref, Channel>)
    requires Reads(s, agent, from, g) && g.relations == RelationsIn(table, |table|, s.relations, agent, from)
    ensures PassCompletes(s, table, agent, from, landing) <==> forall i | 0 <= i < |g.relations| :: HasParcel(g, landing, i)
  {
    forall i | 0 <= i < |g.relations| ensures HasParcel(g, landing, i) <==> LandsInAParcel(s, g.relations, agent, from, landing, i) {
      ParcelAsStored(s, g, agent, from, landing, i);
    }
  }

  lemma {:induction false} ParcelAsStored(s: Store, g: Reading, agent: Agent, from: Channel, landing: map<Ref, Channel>, i: nat)
    requires Reads(s, agent, from, g) && i < |g.relations|
    ensures HasParcel(g, landing, i) <==> LandsInAParcel(s, g.relations, agent, from, landing, i)
  {
    if HasParcel(g, landing, i) {
      ParcelIsStored(s, g, agent, from, landing, i);
    }
    if LandsInAParcel(s, g.relations, agent, from, landing, i) {
      StoredIsParcel(s, g, agent, from, landing, i);
    }
  }

  lemma {:induction false} ParcelIsStored(s: Store, g: Reading, agent: Agent, from: Channel, landing: map<Ref, Channel>, i: nat)
    requires Reads(s, agent, from, g) && i < |g.relations| && HasParcel(g, landing, i)
    ensures LandsInAParcel(s, g.relations, agent, from, landing, i)
  {
    var c := LandingOf(g.relations[i], landing);
    if c.Some? {
      if j :| 0 <= j < |g.mentions| && g.mentions[j].1 in landing && landing[g.mentions[j].1] == c.value {
        var m := g.mentions[j];
        assert (m.0, m.1) == m && (m.0, m.1) in g.mentions;
      }
    }
  }

  lemma {:induction false} StoredIsParcel(s: Store, g: Reading, agent: Agent, from: Channel, landing: map<Ref, Channel>, i: nat)
    requires Reads(s, agent, from, g) && i < |g.relations| && LandsInAParcel(s, g.relations, agent, from, landing, i)
    ensures HasParcel(g, landing, i)
  {
    var c := LandingOf(g.relations[i], landing);
    if c.Some? {
      if e, ref :|
        && (e, ref) in s.mentions && e in s.names.entities && Filed(s.names.entities[e].scope, agent, from)
        && ref in landing && landing[ref] == c.value
      {
        assert (e, ref) in g.mentions;
        var j :| 0 <= j < |g.mentions| && g.mentions[j] == (e, ref);
      }
    }
  }

  lemma {:induction false} SameRelationsIn(table: seq<Relation>, n: nat, a: map<Relation, Note>, b: map<Relation, Note>,
                                           agent: Agent, from: Channel)
    requires n <= |table| && forall r: Relation | Filed(r.scope, agent, from) :: r in a <==> r in b
    ensures RelationsIn(table, n, a, agent, from) == RelationsIn(table, n, b, agent, from)
  {
    if n > 0 {
      SameRelationsIn(table, n - 1, a, b, agent, from);
    }
  }

  /** The next agent's pass completes exactly when it would have at first. */
  lemma {:induction false} CompletesAsAtFirst(s: Store, t: Store, g: Reading, table: seq<Relation>, next: Agent, from: Channel,
                                              landing: map<Ref, Channel>)
    requires SamePart(s, t, next) && Reads(t, next, from, g)
    requires g.relations == RelationsIn(table, |table|, t.relations, next, from)
    ensures PassCompletes(s, table, next, from, landing) <==> forall i | 0 <= i < |g.relations| :: HasParcel(g, landing, i)
  {
    ReadsTheSame(s, t, next, from, g);
    SameRelationsIn(table, |table|, s.relations, t.relations, next, from);
    CompletesAsStored(s, g, table, next, from, landing);
  }

  // ---- the code -------------------------------------------------------------------------------------

  lemma {:induction false} NoneYet(s: Store, moved: Moves, from: Channel)
    requires Valid(s)
    ensures AllFollowed(s, s, moved, from, {}, map[])
  {
    forall a ensures SamePart(s, s, a) {
      SamePartSelf(s, a);
    }
  }

  lemma {:induction false} StillATable(s: Store, t: Store, table: seq<Relation>, next: Agent, from: Channel)
    requires SamePart(s, t, next) && forall r | r in s.relations :: r in table
    ensures TableOf(table, t, next, from)
  {
  }

  method FollowNext(db: GraphDb, table: seq<Relation>, moved: Moves, from: Channel, now: int, next: Agent, landing: map<Ref, Channel>,
                    ghost s: Store, ghost agents: set<Agent>, ghost readings: map<Agent, Reading>)
      returns (ok: bool, ghost g: Reading)
    requires Valid(s) && AllFollowed(s, db.Now(), moved, from, agents, readings) && landing == LandingFor(moved, from, next)
    requires next !in agents && forall r | r in s.relations :: r in table
    modifies db
    ensures ok <==> PassCompletes(s, table, next, from, landing)
    ensures ok ==> AllFollowed(s, db.Now(), moved, from, agents + {next}, readings[next := g])
    ensures !ok ==> db.Now() == old(db.Now())
  {
    ghost var t := db.Now();
    LandsElsewhere(moved, from, next);
    StillATable(s, t, table, next, from);
    var graph := ReadGraph(db, table, next, from);
    CompletesAsAtFirst(s, t, graph, table, next, from, landing);
    ghost var run, order;
    ok, run, order := FollowAgent(db, graph, next, landing, from, now);
    g := graph;
    if ok {
      OneMoreFollowed(s, t, db.Now(), graph, moved, from, agents, readings, next, now, run, order);
    }
  }

  /** The agents whose records changed channel. */
  function AgentsOf(moved: Moves, from: Channel): set<Agent> {
    set ref | ref in moved && moved[ref].1 != from :: moved[ref].0
  }

  /** The passes of these agents complete, by what they have in the old channel. */
  ghost predicate AllComplete(s: Store, table: seq<Relation>, moved: Moves, from: Channel, agents: set<Agent>) {
    forall a | a in agents :: PassCompletes(s, table, a, from, LandingFor(moved, from, a))
  }

  lemma {:induction false} OneMoreCompletes(s: Store, table: seq<Relation>, moved: Moves, from: Channel, agents: set<Agent>, next: Agent)
    ensures AllComplete(s, table, moved, from, agents + {next})
      <==> AllComplete(s, table, moved, from, agents) && PassCompletes(s, table, next, from, LandingFor(moved, from, next))
  {
  }

  lemma {:induction false} SomeDoesNot(s: Store, table: seq<Relation>, moved: Moves, from: Channel, agents: set<Agent>, next: Agent)
    requires next in agents && !PassCompletes(s, table, next, from, LandingFor(moved, from, next))
    ensures !AllComplete(s, table, moved, from, agents)
  {
  }

  lemma {:induction false} OneLeft(all: set<Agent>, todo: set<Agent>, done: set<Agent>, next: Agent)
    requires todo <= all && done == all - todo && next in todo
    ensures done + {next} == all - (todo - {next}) && todo - {next} <= all && next !in done
  {
  }

  /** One agent after another, in any order. */
  method FollowEach(db: GraphDb, table: seq<Relation>, moved: Moves, from: Channel, now: int, landing: map<Agent, map<Ref, Channel>>,
                    ghost s: Store) returns (ok: bool, ghost agents: set<Agent>, ghost readings: map<Agent, Reading>)
    requires Valid(s) && AllFollowed(s, db.Now(), moved, from, {}, map[]) && Grouped(landing, moved, from)
    requires forall r | r in s.relations :: r in table
    modifies db
    ensures AllFollowed(s, db.Now(), moved, from, agents, readings)
    ensures ok <==> AllComplete(s, table, moved, from, landing.Keys)
    ensures ok ==> agents == landing.Keys
  {
    var todo := landing.Keys;
    agents, readings := {}, map[];
    while todo != {}
      invariant todo <= landing.Keys && agents == landing.Keys - todo
      invariant AllFollowed(s, db.Now(), moved, from, agents, readings)
      invariant AllComplete(s, table, moved, from, agents)
      decreases todo
    {
      var agent :| agent in todo;
      ghost var g;
      ok, g := FollowNext(db, table, moved, from, now, agent, landing[agent], s, agents, readings);
      if !ok {
        SomeDoesNot(s, table, moved, from, landing.Keys, agent);
        return;
      }
      OneMoreCompletes(s, table, moved, from, agents, agent);
      OneLeft(landing.Keys, todo, agents, agent);
      todo, agents, readings := todo - {agent}, agents + {agent}, readings[agent := g];
    }
    ok := true;
  }

  /** Take the old channel's declarations about re-filed records to their new channel. */
  method FollowRechannelled(db: GraphDb, table: seq<Relation>, moved: Moves, from: Channel, now: int)
      returns (ok: bool, ghost agents: set<Agent>, ghost readings: map<Agent, Reading>)
    requires Valid(db.Now()) && (forall r | r in db.relations :: r in table)
    requires forall i, j | 0 <= i < j < |table| :: table[i] != table[j]
    modifies db
    ensures AllFollowed(old(db.Now()), db.Now(), moved, from, agents, readings)
    ensures ok <==> AllComplete(old(db.Now()), table, moved, from, AgentsOf(moved, from))
    ensures ok ==> agents == AgentsOf(moved, from)
  {
    var landing := ByAgent(moved, from);
    AgentsMoved(moved, from, landing);
    NoneYet(db.Now(), moved, from);
    ok, agents, readings := FollowEach(db, table, moved, from, now, landing, db.Now());
  }

  lemma {:induction false} AgentsMoved(moved: Moves, from: Channel, landing: map<Agent, map<Ref, Channel>>)
    requires Grouped(landing, moved, from)
    ensures landing.Keys == AgentsOf(moved, from)
  {
    forall ref | ref in moved && moved[ref].1 != from ensures moved[ref].0 in landing {
      assert ref in LandingFor(moved, from, moved[ref].0);
    }
    forall a | a in landing ensures exists ref :: ref in moved && moved[ref].1 != from && moved[ref].0 == a {
      var ref :| ref in LandingFor(moved, from, a);
    }
  }
}
