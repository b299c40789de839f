/** Every graph the package's writers can reach: those of cpersona/associations.py, the delete
    triggers of cpersona/database.py, and the deletes of an agent's graph in
    cpersona/admin_handlers.py. */
module GraphRuns {
  import opened Common
  import opened Graph
  import opened Carry
  import opened Declare
  import opened Rechannel
  import opened Follow
  import Repoint

  /** One transaction on the graph or on the records it names. */
  datatype Event =
    | Declares(entities: seq<DeclaredEntity>, relations: seq<DeclaredRelation>, call: Call)
    | Carries(bundle: Bundle, way: Way, seeds: map<nat, nat>)
    | Follows(reading: Reading, agent: Agent, landing: map<Ref, Channel>, from: Channel, now: int)
    | Retracts(unsaid: set<(nat, Ref)>, unrelated: set<Relation>)
    | AddsRecord(ref: Ref, agent: Agent)
    | DeletesRecord(ref: Ref)
    | DeletesEntity(entity: nat)
    | DropsAgent(dropped: Agent)
    | RepointsRecord(owner: Agent, before: Ref, after: Ref)

  ghost predicate Steps(s: Store, e: Event, t: Store) {
    match e
    case Declares(entities, relations, call) => t == Declared(s, entities, relations, call).store
    case Carries(bundle, way, seeds) => Seeds(s, way, seeds) && t == CarriedGraph(s, bundle, way, seeds).store
    case Follows(reading, agent, landing, from, now) =>
      && Reads(s, agent, from, reading) && from !in landing.Values
      && exists run, order :: Passes(s, t, reading, landing, now, run, order)
    case Retracts(mentions, relations) => t == Cleared(s, mentions, relations)
    case AddsRecord(ref, agent) => ref !in s.records && t == s.(records := s.records[ref := agent])
    case DeletesRecord(ref) => t == WithoutRecord(s, ref)
    case DeletesEntity(entity) => t == WithoutEntity(s, entity)
    case DropsAgent(agent) => t == Repoint.WithoutAgent(s, agent)
    case RepointsRecord(agent, before, after) =>
      before != after && IsRecordOf(s, after, agent) && Repoint.Repoints(s, t, agent, before, after)
  }

  ghost predicate StepsAt(run: seq<Store>, events: seq<Event>, n: int)
    requires 0 <= n < |events| < |run|
  {
    Steps(run[n], events[n], run[n+1])
  }

  /** A run from a store in which nothing is declared. */
  ghost predicate Reaches(run: seq<Store>, events: seq<Event>) {
    && |run| == |events| + 1
    && run[0].names == Names(map[], map[], 0) && run[0].mentions == map[] && run[0].relations == map[]
    && (forall n | 0 <= n < |events| :: StepsAt(run, events, n))
  }

  lemma {:induction false} StepKeepsValid(s: Store, e: Event, t: Store)
    requires Valid(s) && Steps(s, e, t)
    ensures Valid(t)
  {
    match e {
      case Declares(entities, relations, call) => DeclaredKeeps(s, entities, relations, call);
      case Carries(bundle, way, seeds) => CarryKeeps(s, bundle, way, seeds);
      case Follows(reading, agent, landing, from, now) =>
        var run, order :| Passes(s, t, reading, landing, now, run, order);
        PassLosesNothing(s, t, reading, landing, now, run, order, agent, from);
      case Retracts(mentions, relations) => ClearedIsValid(s, mentions, relations);
      case AddsRecord(ref, agent) => AddingKeepsValid(s, ref, agent);
      case DeletesRecord(ref) => ForgettingKeepsValid(s, ref);
      case DeletesEntity(entity) => DeletingKeepsValid(s, entity);
      case DropsAgent(agent) => Repoint.DroppingTakesTheAgent(s, agent);
      case RepointsRecord(agent, before, after) => Repoint.RepointKeepsValid(s, t, agent, before, after);
    }
  }

  lemma {:induction false} AddingKeepsValid(s: Store, ref: Ref, agent: Agent)
    requires Valid(s) && ref !in s.records
    ensures Valid(s.(records := s.records[ref := agent]))
  {
    var t := s.(records := s.records[ref := agent]);
    forall r | r in t.relations ensures RelationStands(t, r) {
      assert RelationStands(s, r);
    }
    forall e, x | (e, x) in t.mentions ensures MentionStands(t, e, x) {
      assert MentionStands(s, e, x);
    }
  }

  lemma {:induction false} ReachedIsValid(run: seq<Store>, events: seq<Event>, n: nat)
    requires Reaches(run, events) && n < |run|
    ensures Valid(run[n])
  {
    if n > 0 {
      ReachedIsValid(run, events, n - 1);
      assert StepsAt(run, events, n - 1);
      StepKeepsValid(run[n-1], events[n-1], run[n]);
    }
  }

  /** In every reachable graph a normalized name or alias belongs to at most one entity of an
      exact scope, and carrying any graph a second time, whenever, is carrying it once. */
  lemma {:induction false} ReachedHasOneOwner(run: seq<Store>, events: seq<Event>, n: nat, a: nat, b: nat, name: Norm,
                                              bundle: Bundle, way: Way, seeds: map<nat, nat>, later: int)
    requires Reaches(run, events) && n < |run| && Keyed(bundle)
    ensures Named(run[n].names, a, name) && Named(run[n].names, b, name) && a != b ==>
      run[n].names.entities[a].scope != run[n].names.entities[b].scope
    ensures var once := CarriedGraph(run[n], bundle, way, seeds).store;
      CarriedGraph(once, bundle, way.(now := later), seeds).store == once
  {
    ReachedIsValid(run, events, n);
    CarriedTwice(run[n], bundle, way, seeds, later);
  }
}
