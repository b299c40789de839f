/** Carrying a graph into the store with its records (cpersona/associations.py, `carry`),
    every record ref remapped, and why carrying twice is carrying once. */
module Carry {
  import opened Common
  import opened Graph

  /** The records of a graph as they were read; None where a field is malformed. Keyed on
      the ids they had there. */
  datatype EntityRecord = EntityRecord(
    id: nat, scope: Scope, name: Option<Term>, declaredBy: Option<By>, at: Option<int>, aliases: seq<Option<Term>>)
  datatype MentionRecord = MentionRecord(entity: Option<nat>, ref: Option<Ref>, declaredBy: Option<By>, at: Option<int>)
  datatype RelationRecord = RelationRecord(
    scope: Scope, subject: Option<End>, verb: Option<Norm>, target: Option<End>, anchor: Option<Option<Ref>>,
    declaredBy: Option<By>, at: Option<int>)

  datatype Bundle = Bundle(entities: seq<EntityRecord>, mentions: seq<MentionRecord>, relations: seq<RelationRecord>)

  /** How a graph is carried: under an agent of its own when one is given, its refs through
      a map when there is one. */
  datatype Way = Way(agent: Agent, refs: Option<map<Ref, Ref>>, now: int)

  /** The entities of a graph are keyed on their ids. */
  ghost predicate Keyed(g: Bundle) {
    forall i, j | 0 <= i < j < |g.entities| :: g.entities[i].id != g.entities[j].id
  }

  function Owner(way: Way, own: Agent): Agent {
    if way.agent != NoAgent then way.agent else own
  }

  function Stamped(declaredBy: By, at: Option<int>, now: int): Note {
    Note(declaredBy, if at.Some? then at.value else now)
  }

  // ---- entities --------------------------------------------------------------------------

  /** Where the entities landed, and whose each is. */
  datatype Landed = Landed(names: Names, at: map<nat, nat>, owners: map<nat, Agent>,
                           carried: nat, dropped: nat, aliasesDropped: nat, incomplete: set<nat>)

  predicate Usable(way: Way, e: EntityRecord) {
    e.name.Some? && e.declaredBy.Some? && Owner(way, e.scope.agent) != NoAgent
  }

  function ScopeHere(way: Way, e: EntityRecord): Scope {
    e.scope.(agent := Owner(way, e.scope.agent))
  }

  function EntityPlaced(x: Names, e: EntityRecord, way: Way): (r: Placed)
    requires Usable(way, e)
    ensures r.entity in r.names.entities
  {
    Register(x, ScopeHere(way, e), e.name.value, Stamped(e.declaredBy.value, e.at, way.now), true)
  }

  /** One entity lands on the entity its name resolves to in its exact scope, or a new one. */
  function Land(l: Landed, e: EntityRecord, way: Way): Landed {
    if !Usable(way, e) then l.(dropped := l.dropped + 1)
    else
      var p := EntityPlaced(l.names, e, way);
      var a := AliasesAttached(p.names, p.entity, e.aliases, |e.aliases|, |e.aliases|);
      Landed(a.names, l.at[e.id := p.entity], l.owners[e.id := Owner(way, e.scope.agent)],
             l.carried + 1, l.dropped, l.aliasesDropped + a.dropped,
             if a.dropped > 0 then l.incomplete + {e.id} else l.incomplete)
  }

  function LandAll(l: Landed, es: seq<EntityRecord>, n: nat, way: Way): Landed
    requires n <= |es|
  {
    if n == 0 then l else Land(LandAll(l, es, n - 1, way), es[n-1], way)
  }

  /** What landing leaves of one entity: the scope's one owner of its name, with each alias
      attached or refused for good. */
  ghost predicate LandedAs(x: Names, e: EntityRecord, way: Way, here: nat)
    requires Usable(way, e)
  {
    && Owns(x, ScopeHere(way, e), e.name.value.normalized, here)
    && forall i | 0 <= i < |e.aliases| && e.aliases[i].Some? :: Settled(x, here, e.aliases[i].value.normalized)
  }

  lemma {:induction false} LandKeeps(l: Landed, e: EntityRecord, way: Way)
    requires ValidNames(l.names)
    ensures Extends(l.names, Land(l, e, way).names)
    ensures Usable(way, e) ==> e.id in Land(l, e, way).at && LandedAs(Land(l, e, way).names, e, way, Land(l, e, way).at[e.id])
  {
    if Usable(way, e) {
      var p := EntityPlaced(l.names, e, way);
      RegisterExtends(l.names, ScopeHere(way, e), e.name.value, Stamped(e.declaredBy.value, e.at, way.now), true);
      AliasesKeep(p.names, p.entity, e.aliases, |e.aliases|, |e.aliases|);
      var y := AliasesAttached(p.names, p.entity, e.aliases, |e.aliases|, |e.aliases|).names;
      ExtendsTwice(l.names, p.names, y);
      forall i | 0 <= i < |e.aliases| && e.aliases[i].Some?
        ensures Settled(y, p.entity, e.aliases[i].value.normalized)
      {
        AliasesSettled(p.names, p.entity, e.aliases, |e.aliases|, |e.aliases|, i);
      }
    }
  }

  lemma {:induction false} LandedStays(x: Names, y: Names, e: EntityRecord, way: Way, here: nat)
    requires Extends(x, y) && Usable(way, e) && LandedAs(x, e, way, here)
    ensures LandedAs(y, e, way, here)
  {
    forall i | 0 <= i < |e.aliases| && e.aliases[i].Some?
      ensures Settled(y, here, e.aliases[i].value.normalized)
    {
      SettledStays(x, y, here, e.aliases[i].value.normalized);
    }
  }

  lemma {:induction false} LandAllKeeps(l: Landed, es: seq<EntityRecord>, n: nat, way: Way)
    requires n <= |es| && ValidNames(l.names)
    ensures Extends(l.names, LandAll(l, es, n, way).names)
  {
    if n > 0 {
      LandAllKeeps(l, es, n - 1, way);
      LandKeeps(LandAll(l, es, n - 1, way), es[n-1], way);
      ExtendsTwice(l.names, LandAll(l, es, n - 1, way).names, LandAll(l, es, n, way).names);
    }
  }

  /** Each entity is landed when all have been. */
  lemma {:induction false} AllLanded(l: Landed, es: seq<EntityRecord>, n: nat, way: Way, i: nat)
    requires i < n <= |es| && ValidNames(l.names) && Usable(way, es[i])
    requires forall a, b | 0 <= a < b < |es| :: es[a].id != es[b].id
    ensures var r := LandAll(l, es, n, way);
      && es[i].id in r.at && es[i].id in r.owners
      && r.at[es[i].id] == LandAll(l, es, i + 1, way).at[es[i].id]
      && r.owners[es[i].id] == Owner(way, es[i].scope.agent)
      && LandedAs(r.names, es[i], way, r.at[es[i].id])
  {
    var before := LandAll(l, es, n - 1, way);
    LandAllKeeps(l, es, n - 1, way);
    LandKeeps(before, es[n-1], way);
    if i < n - 1 {
      AllLanded(l, es, n - 1, way, i);
      LandedStays(before.names, LandAll(l, es, n, way).names, es[i], way, before.at[es[i].id]);
    }
  }

  /** What was in place before stays where it was, unless an entity of the graph has its id. */
  lemma {:induction false} LandedAtStays(l: Landed, es: seq<EntityRecord>, n: nat, way: Way, id: nat)
    requires n <= |es| && forall i | 0 <= i < n :: es[i].id != id
    ensures id in LandAll(l, es, n, way).at <==> id in l.at
    ensures id in l.at ==> LandAll(l, es, n, way).at[id] == l.at[id]
    ensures id in LandAll(l, es, n, way).owners <==> id in l.owners
  {
    if n > 0 {
      LandedAtStays(l, es, n - 1, way, id);
    }
  }

  lemma {:induction false} AttachAgain(y: Names, e: nat, aliases: seq<Option<Term>>, n: nat, maxAliases: nat)
    requires n <= |aliases| && e in y.entities
    requires forall i | 0 <= i < n && aliases[i].Some? :: Settled(y, e, aliases[i].value.normalized)
    ensures AliasesAttached(y, e, aliases, n, maxAliases).names == y
  {
    if n > 0 {
      AttachAgain(y, e, aliases, n - 1, maxAliases);
    }
  }

  /** Landing again, at whatever later time, where everything has landed changes no name and
      finds the same ids. */
  lemma {:induction false} LandAgain(l: Landed, l': Landed, es: seq<EntityRecord>, n: nat, way: Way, later: int)
    requires n <= |es| && ValidNames(l.names)
    requires forall a, b | 0 <= a < b < |es| :: es[a].id != es[b].id
    requires l' == l.(names := LandAll(l, es, |es|, way).names)
    ensures var again := LandAll(l', es, n, way.(now := later));
      && again.names == l'.names
      && again.at == LandAll(l, es, n, way).at && again.owners == LandAll(l, es, n, way).owners
  {
    if n > 0 {
      LandAgain(l, l', es, n - 1, way, later);
      if Usable(way, es[n-1]) {
        AllLanded(l, es, |es|, way, n - 1);
        LandAllKeeps(l, es, |es|, way);
        LandOnceMore(LandAll(l', es, n - 1, way.(now := later)), es[n-1], way.(now := later),
                     LandAll(l, es, n, way).at[es[n-1].id]);
      }
    }
  }

  lemma {:induction false} LandOnceMore(l: Landed, e: EntityRecord, way: Way, here: nat)
    requires ValidNames(l.names) && Usable(way, e) && LandedAs(l.names, e, way, here)
    ensures Land(l, e, way).names == l.names && Land(l, e, way).at == l.at[e.id := here]
  {
    ExactFirst(l.names, ScopeHere(way, e), e.name.value.normalized, here);
    AttachAgain(l.names, here, e.aliases, |e.aliases|, |e.aliases|);
  }

  // ---- mentions and relations --------------------------------------------------------------

  /** The ref a record has here, if it is a record of its owner. */
  function RecordHere(records: map<Ref, Agent>, way: Way, owner: Agent, ref: Option<Ref>): (r: Option<Ref>)
    ensures r.Some? ==> r.value in records && records[r.value] == owner
  {
    if ref.None? then None
    else
      var here := if way.refs.None? then ref
                  else if ref.value in way.refs.value then Some(way.refs.value[ref.value])
                  else None;
      if here.Some? && here.value in records && records[here.value] == owner then here else None
  }

  function MentionOwner(l: Landed, way: Way, entity: nat): Agent {
    if way.agent != NoAgent then way.agent
    else if entity in l.owners then l.owners[entity] else NoAgent
  }

  /** The row a mention is written as, if it can be. */
  function MentionHere(l: Landed, records: map<Ref, Agent>, way: Way, m: MentionRecord): Option<(nat, Ref)> {
    if m.entity.None? || m.entity.value !in l.at || m.declaredBy.None?
      || MentionOwner(l, way, m.entity.value) == NoAgent then None
    else match RecordHere(records, way, MentionOwner(l, way, m.entity.value), m.ref)
      case None => None
      case Some(ref) => Some((l.at[m.entity.value], ref))
  }

  function EndHere(l: Landed, records: map<Ref, Agent>, way: Way, owner: Agent, end: Option<End>): Option<End> {
    match end
    case None => None
    case Some(Thing(e)) => if e in l.at then Some(Thing(l.at[e])) else None
    case Some(Item(ref)) =>
      (match RecordHere(records, way, owner, Some(ref))
       case None => None
       case Some(here) => Some(Item(here)))
  }

  /** The row a relation is written as, if it can be. */
  function RelationHere(l: Landed, records: map<Ref, Agent>, way: Way, r: RelationRecord): Option<Relation> {
    var owner := Owner(way, r.scope.agent);
    if owner == NoAgent || r.verb.None? || r.declaredBy.None? then None
    else
      var subject := EndHere(l, records, way, owner, r.subject);
      var target := EndHere(l, records, way, owner, r.target);
      var anchor := if r.anchor.None? then None else RecordHere(records, way, owner, r.anchor.value);
      if subject.None? || target.None? || (r.anchor.Some? && anchor.None?) then None
      else Some(Relation(r.scope.(agent := owner), subject.value, r.verb.value, target.value, anchor))
  }

  datatype Tally = Tally(store: Store, written: nat, dropped: nat)

  function MentionCarried(t: Tally, l: Landed, way: Way, m: MentionRecord): Tally {
    match MentionHere(l, t.store.records, way, m)
    case None => t.(dropped := t.dropped + 1)
    case Some(k) =>
      Tally(Mentioned(t.store, k.0, k.1, Stamped(if m.declaredBy.Some? then m.declaredBy.value else ByAgent, m.at, way.now)),
            t.written + 1, t.dropped)
  }

  function MentionsCarried(t: Tally, l: Landed, way: Way, ms: seq<MentionRecord>, n: nat): Tally
    requires n <= |ms|
  {
    if n == 0 then t else MentionCarried(MentionsCarried(t, l, way, ms, n - 1), l, way, ms[n-1])
  }

  function RelationCarried(t: Tally, l: Landed, way: Way, r: RelationRecord): Tally {
    match RelationHere(l, t.store.records, way, r)
    case None => t.(dropped := t.dropped + 1)
    case Some(k) =>
      Tally(Related(t.store, k, Stamped(if r.declaredBy.Some? then r.declaredBy.value else ByAgent, r.at, way.now)),
            t.written + 1, t.dropped)
  }

  function RelationsCarried(t: Tally, l: Landed, way: Way, rs: seq<RelationRecord>, n: nat): Tally
    requires n <= |rs|
  {
    if n == 0 then t else RelationCarried(RelationsCarried(t, l, way, rs, n - 1), l, way, rs[n-1])
  }

  /** What a carry wrote, and what it could not. */
  datatype Carried = Carried(store: Store, landed: Landed, mentions: nat, relations: nat, dropped: nat)

  function Start(s: Store, seeds: map<nat, nat>): Landed {
    Landed(s.names, seeds, map[], 0, 0, 0, {})
  }

  function CarriedGraph(s: Store, g: Bundle, way: Way, seeds: map<nat, nat>): (c: Carried) {
    var l := LandAll(Start(s, seeds), g.entities, |g.entities|, way);
    var m := MentionsCarried(Tally(s.(names := l.names), 0, l.dropped), l, way, g.mentions, |g.mentions|);
    var r := RelationsCarried(Tally(m.store, 0, m.dropped), l, way, g.relations, |g.relations|);
    Carried(r.store, l, m.written, r.written, r.dropped)
  }

  /** Everything of a graph that can be written is in the store. */
  ghost predicate Arrived(s: Store, l: Landed, way: Way, g: Bundle) {
    && (forall i | 0 <= i < |g.mentions| :: var k := MentionHere(l, s.records, way, g.mentions[i]);
          k.Some? ==> k.value in s.mentions)
    && (forall i | 0 <= i < |g.relations| :: var k := RelationHere(l, s.records, way, g.relations[i]);
          k.Some? ==> k.value in s.relations)
  }

  lemma {:induction false} MentionsArrive(t: Tally, l: Landed, way: Way, ms: seq<MentionRecord>, n: nat)
    requires n <= |ms|
    ensures var r := MentionsCarried(t, l, way, ms, n);
      && r.store == t.store.(mentions := r.store.mentions)
      && (forall k | k in t.store.mentions :: k in r.store.mentions && r.store.mentions[k] == t.store.mentions[k])
      && (forall i | 0 <= i < n :: var k := MentionHere(l, t.store.records, way, ms[i]); k.Some? ==> k.value in r.store.mentions)
      && r.dropped >= t.dropped
      && (r.dropped == t.dropped ==> forall i | 0 <= i < n :: MentionHere(l, t.store.records, way, ms[i]).Some?)
  {
    if n > 0 {
      MentionsArrive(t, l, way, ms, n - 1);
    }
  }

  lemma {:induction false} RelationsArrive(t: Tally, l: Landed, way: Way, rs: seq<RelationRecord>, n: nat)
    requires n <= |rs|
    ensures var r := RelationsCarried(t, l, way, rs, n);
      && r.store == t.store.(relations := r.store.relations)
      && (forall k | k in t.store.relations :: k in r.store.relations && r.store.relations[k] == t.store.relations[k])
      && (forall i | 0 <= i < n :: var k := RelationHere(l, t.store.records, way, rs[i]); k.Some? ==> k.value in r.store.relations)
      && r.dropped >= t.dropped
      && (r.dropped == t.dropped ==> forall i | 0 <= i < n :: RelationHere(l, t.store.records, way, rs[i]).Some?)
  {
    if n > 0 {
      RelationsArrive(t, l, way, rs, n - 1);
    }
  }

  /** Writing what is already there changes nothing. */
  lemma {:induction false} MentionsAgain(t: Tally, l: Landed, way: Way, ms: seq<MentionRecord>, n: nat)
    requires n <= |ms|
    requires forall i | 0 <= i < n :: var k := MentionHere(l, t.store.records, way, ms[i]); k.Some? ==> k.value in t.store.mentions
    ensures MentionsCarried(t, l, way, ms, n).store == t.store
  {
    if n > 0 {
      MentionsAgain(t, l, way, ms, n - 1);
    }
  }

  lemma {:induction false} RelationsAgain(t: Tally, l: Landed, way: Way, rs: seq<RelationRecord>, n: nat)
    requires n <= |rs|
    requires forall i | 0 <= i < n :: var k := RelationHere(l, t.store.records, way, rs[i]); k.Some? ==> k.value in t.store.relations
    ensures RelationsCarried(t, l, way, rs, n).store == t.store
  {
    if n > 0 {
      RelationsAgain(t, l, way, rs, n - 1);
    }
  }

  /** Where rows go depends only on where the entities landed, not on when. */
  lemma {:induction false} SamePlaces(l: Landed, l': Landed, records: map<Ref, Agent>, way: Way, later: int)
    requires l.at == l'.at && l.owners == l'.owners
    ensures forall m :: MentionHere(l, records, way, m) == MentionHere(l', records, way.(now := later), m)
    ensures forall r :: RelationHere(l, records, way, r) == RelationHere(l', records, way.(now := later), r)
  {
  }

  lemma {:induction false} CarryArrives(s: Store, g: Bundle, way: Way, seeds: map<nat, nat>)
    ensures var c := CarriedGraph(s, g, way, seeds);
      && Arrived(c.store, c.landed, way, g)
      && c.store.names == c.landed.names && c.store.records == s.records
      && (forall k | k in s.mentions :: k in c.store.mentions && c.store.mentions[k] == s.mentions[k])
      && (forall k | k in s.relations :: k in c.store.relations && c.store.relations[k] == s.relations[k])
      && (c.dropped == 0 ==>
           && c.landed.dropped == 0
           && (forall i | 0 <= i < |g.mentions| :: MentionHere(c.landed, s.records, way, g.mentions[i]).Some?)
           && (forall i | 0 <= i < |g.relations| :: RelationHere(c.landed, s.records, way, g.relations[i]).Some?))
  {
    var l := LandAll(Start(s, seeds), g.entities, |g.entities|, way);
    var t := Tally(s.(names := l.names), 0, l.dropped);
    MentionsArrive(t, l, way, g.mentions, |g.mentions|);
    var m := MentionsCarried(t, l, way, g.mentions, |g.mentions|);
    RelationsArrive(Tally(m.store, 0, m.dropped), l, way, g.relations, |g.relations|);
  }

  /** Carrying the same graph through the same map a second time, at whatever instant, leaves
      the store as carrying it once did. */
  lemma {:induction false} CarriedTwice(s: Store, g: Bundle, way: Way, seeds: map<nat, nat>, later: int)
    requires ValidNames(s.names) && Keyed(g)
    ensures var once := CarriedGraph(s, g, way, seeds);
      var twice := CarriedGraph(once.store, g, way.(now := later), seeds);
      twice.store == once.store && twice.landed.at == once.landed.at
  {
    var once := CarriedGraph(s, g, way, seeds);
    CarryArrives(s, g, way, seeds);
    var l, l', next := Start(s, seeds), Start(once.store, seeds), way.(now := later);
    LandAgain(l, l', g.entities, |g.entities|, way, later);
    var again := LandAll(l', g.entities, |g.entities|, next);
    SamePlaces(once.landed, again, once.store.records, way, later);
    var t := Tally(once.store.(names := again.names), 0, again.dropped);
    assert t.store == once.store;
    MentionsAgain(t, again, next, g.mentions, |g.mentions|);
    var m := MentionsCarried(t, again, next, g.mentions, |g.mentions|);
    RelationsAgain(Tally(m.store, 0, m.dropped), again, next, g.relations, |g.relations|);
  }

  // ---- what a carry keeps --------------------------------------------------------------------

  /** Where ids lead: entities that exist, of the agent the mention of them goes under. */
  ghost predicate Leads(l: Landed, way: Way) {
    forall id | id in l.at ::
      && l.at[id] in l.names.entities
      && (MentionOwner(l, way, id) != NoAgent ==> l.names.entities[l.at[id]].scope.agent == MentionOwner(l, way, id))
  }

  lemma {:induction false} LandLeads(l: Landed, e: EntityRecord, way: Way)
    requires ValidNames(l.names) && Leads(l, way)
    ensures Leads(Land(l, e, way), way)
  {
    LandKeeps(l, e, way);
  }

  lemma {:induction false} LandAllLeads(l: Landed, es: seq<EntityRecord>, n: nat, way: Way)
    requires n <= |es| && ValidNames(l.names) && Leads(l, way)
    ensures Leads(LandAll(l, es, n, way), way)
  {
    if n > 0 {
      LandAllKeeps(l, es, n - 1, way);
      LandAllLeads(l, es, n - 1, way);
      LandLeads(LandAll(l, es, n - 1, way), es[n-1], way);
    }
  }

  lemma {:induction false} MentionsGrow(t: Tally, l: Landed, way: Way, ms: seq<MentionRecord>, n: nat)
    requires n <= |ms| && Valid(t.store) && t.store.names == l.names && Leads(l, way)
    ensures var r := MentionsCarried(t, l, way, ms, n).store; Valid(r) && Grows(t.store, r) && r.names == l.names
  {
    if n > 0 {
      MentionsGrow(t, l, way, ms, n - 1);
      var s := MentionsCarried(t, l, way, ms, n - 1).store;
      match MentionHere(l, s.records, way, ms[n-1]) {
        case None =>
        case Some(k) =>
          var note := Stamped(ms[n-1].declaredBy.value, ms[n-1].at, way.now);
          MentioningGrows(s, k.0, Some(k.1), note);
          GrowsTwice(t.store, s, Mentioned(s, k.0, k.1, note));
      }
    }
  }

  lemma {:induction false} RelationStandsHere(s: Store, l: Landed, way: Way, r: RelationRecord)
    requires s.names == l.names && Leads(l, way) && RelationHere(l, s.records, way, r).Some?
    ensures RelationStands(s, RelationHere(l, s.records, way, r).value)
  {
  }

  lemma {:induction false} RelationsGrow(t: Tally, l: Landed, way: Way, rs: seq<RelationRecord>, n: nat)
    requires n <= |rs| && Valid(t.store) && t.store.names == l.names && Leads(l, way)
    ensures var r := RelationsCarried(t, l, way, rs, n).store; Valid(r) && Grows(t.store, r) && r.names == l.names
  {
    if n > 0 {
      RelationsGrow(t, l, way, rs, n - 1);
      var s := RelationsCarried(t, l, way, rs, n - 1).store;
      match RelationHere(l, s.records, way, rs[n-1]) {
        case None =>
        case Some(k) =>
          var note := Stamped(rs[n-1].declaredBy.value, rs[n-1].at, way.now);
          RelationStandsHere(s, l, way, rs[n-1]);
          RelatingGrows(s, k, note);
          GrowsTwice(t.store, s, Related(s, k, note));
      }
    }
  }

  /** What a caller may seed: entities that exist, and of the agent given if one is. */
  ghost predicate Seeds(s: Store, way: Way, seeds: map<nat, nat>) {
    forall id | id in seeds ::
      && seeds[id] in s.names.entities
      && (way.agent != NoAgent ==> s.names.entities[seeds[id]].scope.agent == way.agent)
  }

  /** A carry takes nothing out of the store and keeps one owner a scope and every
      declaration on records of its agent. */
  lemma {:induction false} CarryKeeps(s: Store, g: Bundle, way: Way, seeds: map<nat, nat>)
    requires Valid(s) && Seeds(s, way, seeds)
    ensures Valid(CarriedGraph(s, g, way, seeds).store) && Grows(s, CarriedGraph(s, g, way, seeds).store)
  {
    var start := Start(s, seeds);
    var l := LandAll(start, g.entities, |g.entities|, way);
    LandAllKeeps(start, g.entities, |g.entities|, way);
    assert Leads(start, way);
    LandAllLeads(start, g.entities, |g.entities|, way);
    NamingGrows(s, l.names);
    var t := Tally(s.(names := l.names), 0, l.dropped);
    MentionsGrow(t, l, way, g.mentions, |g.mentions|);
    var m := MentionsCarried(t, l, way, g.mentions, |g.mentions|);
    GrowsTwice(s, t.store, m.store);
    RelationsGrow(Tally(m.store, 0, m.dropped), l, way, g.relations, |g.relations|);
    GrowsTwice(s, m.store, CarriedGraph(s, g, way, seeds).store);
  }

  // ---- what a carry writes, row for row ---------------------------------------------------------

  /** The agent a row goes under. */
  predicate GoesUnder(way: Way, own: Agent, agent: Agent) {
    agent != NoAgent && agent == (if way.agent == NoAgent then own else way.agent)
  }

  /** The record a ref stands for here: itself, or what the map takes it to; and it must be a
      record of the agent's. */
  predicate StandsFor(records: map<Ref, Agent>, way: Way, ref: Ref, here: Ref, agent: Agent) {
    && (if way.refs.None? then here == ref else ref in way.refs.value && way.refs.value[ref] == here)
    && here in records && records[here] == agent
  }

  predicate SaidBy(note: Note, declaredBy: Option<By>, at: Option<int>, now: int) {
    declaredBy == Some(note.declaredBy) && note.at == (if at.Some? then at.value else now)
  }

  /** The row a mention goes in as: of where its entity landed, about its record here. */
  predicate MentionSays(l: Landed, records: map<Ref, Agent>, way: Way, m: MentionRecord, k: (nat, Ref)) {
    && m.entity.Some? && m.entity.value in l.at && l.at[m.entity.value] == k.0 && m.declaredBy.Some? && m.ref.Some?
    && (way.agent == NoAgent ==> m.entity.value in l.owners)
    && var agent := if way.agent == NoAgent then l.owners[m.entity.value] else way.agent;
      agent != NoAgent && StandsFor(records, way, m.ref.value, k.1, agent)
  }

  predicate EndSays(l: Landed, records: map<Ref, Agent>, way: Way, agent: Agent, end: Option<End>, here: End) {
    match end
    case None => false
    case Some(Thing(e)) => e in l.at && here == Thing(l.at[e])
    case Some(Item(ref)) => here.Item? && StandsFor(records, way, ref, here.ref, agent)
  }

  /** The row a relation goes in as: its own scope under the agent, its ends where they are
      here, its verb, and its anchor's record here. */
  predicate RelationSays(l: Landed, records: map<Ref, Agent>, way: Way, r: RelationRecord, k: Relation) {
    && GoesUnder(way, r.scope.agent, k.scope.agent) && k.scope.project == r.scope.project && k.scope.channel == r.scope.channel
    && r.verb == Some(k.verb) && r.declaredBy.Some?
    && EndSays(l, records, way, k.scope.agent, r.subject, k.subject) && EndSays(l, records, way, k.scope.agent, r.target, k.target)
    && (if r.anchor.None? then k.anchor.None?
        else r.anchor.value.Some? && k.anchor.Some? && StandsFor(records, way, r.anchor.value.value, k.anchor.value, k.scope.agent))
  }

  /** An entity's row: its name and provenance, in its own scope under the agent. */
  predicate EntitySays(way: Way, e: EntityRecord, row: Entity) {
    && GoesUnder(way, e.scope.agent, row.scope.agent) && row.scope.project == e.scope.project && row.scope.channel == e.scope.channel
    && e.name == Some(row.name) && SaidBy(row.note, e.declaredBy, e.at, way.now)
  }

  lemma {:induction false} MentionHereIs(l: Landed, records: map<Ref, Agent>, way: Way, m: MentionRecord, k: (nat, Ref))
    ensures MentionHere(l, records, way, m) == Some(k) <==> MentionSays(l, records, way, m, k)
  {
  }

  lemma {:induction false} RelationHereIs(l: Landed, records: map<Ref, Agent>, way: Way, r: RelationRecord, k: Relation)
    ensures RelationHere(l, records, way, r) == Some(k) <==> RelationSays(l, records, way, r, k)
  {
  }

  /** What is new among the mentions is some row's, said by whom and when the row says. */
  ghost predicate MentionsFrom(s: Store, t: Store, l: Landed, way: Way, ms: seq<MentionRecord>, n: nat)
    requires n <= |ms|
  {
    forall k | k in t.mentions && k !in s.mentions :: exists i ::
      0 <= i < n && MentionSays(l, s.records, way, ms[i], k) && SaidBy(t.mentions[k], ms[i].declaredBy, ms[i].at, way.now)
  }

  ghost predicate RelationsFrom(s: Store, t: Store, l: Landed, way: Way, rs: seq<RelationRecord>, n: nat)
    requires n <= |rs|
  {
    forall k | k in t.relations && k !in s.relations :: exists i ::
      0 <= i < n && RelationSays(l, s.records, way, rs[i], k) && SaidBy(t.relations[k], rs[i].declaredBy, rs[i].at, way.now)
  }

  ghost predicate EntitiesFrom(x: Names, y: Names, way: Way, es: seq<EntityRecord>, n: nat)
    requires n <= |es|
  {
    forall h | h in y.entities && h !in x.entities :: exists i :: 0 <= i < n && EntitySays(way, es[i], y.entities[h])
  }

  lemma {:induction false} MentionNew(t: Tally, l: Landed, way: Way, m: MentionRecord)
    ensures var u := MentionCarried(t, l, way, m).store;
      && (forall k | k in t.store.mentions :: k in u.mentions && u.mentions[k] == t.store.mentions[k])
      && (forall k | k in u.mentions && k !in t.store.mentions ::
            MentionSays(l, t.store.records, way, m, k) && SaidBy(u.mentions[k], m.declaredBy, m.at, way.now))
  {
    var u := MentionCarried(t, l, way, m).store;
    forall k | k in u.mentions && k !in t.store.mentions ensures MentionSays(l, t.store.records, way, m, k) {
      MentionHereIs(l, t.store.records, way, m, k);
    }
  }

  lemma {:induction false} OneMoreMentionFrom(s: Store, t: Store, u: Store, l: Landed, way: Way, ms: seq<MentionRecord>, i: nat, n: nat, m: MentionRecord)
    requires n == i + 1 && n <= |ms| && m == ms[i] && MentionsFrom(s, t, l, way, ms, i)
    requires forall k | k in t.mentions :: k in u.mentions && u.mentions[k] == t.mentions[k]
    requires forall k | k in u.mentions && k !in t.mentions ::
      MentionSays(l, s.records, way, m, k) && SaidBy(u.mentions[k], m.declaredBy, m.at, way.now)
    ensures MentionsFrom(s, u, l, way, ms, n)
  {
    forall k | k in u.mentions && k !in s.mentions ensures exists j ::
      0 <= j < n && MentionSays(l, s.records, way, ms[j], k) && SaidBy(u.mentions[k], ms[j].declaredBy, ms[j].at, way.now)
    {
      if k in t.mentions {
        var j :| 0 <= j < i && MentionSays(l, s.records, way, ms[j], k) && SaidBy(t.mentions[k], ms[j].declaredBy, ms[j].at, way.now);
      }
    }
  }

  lemma {:induction false} NextMentionFrom(s: Store, t: Tally, u: Tally, l: Landed, way: Way, ms: seq<MentionRecord>, i: nat, n: nat)
    requires n == i + 1 && n <= |ms| && u == MentionCarried(t, l, way, ms[i]) && t.store.records == s.records
    requires MentionsFrom(s, t.store, l, way, ms, i)
    ensures MentionsFrom(s, u.store, l, way, ms, n)
  {
    MentionNew(t, l, way, ms[i]);
    OneMoreMentionFrom(s, t.store, u.store, l, way, ms, i, n, ms[i]);
  }

  lemma {:induction false} AllMentionsFrom(t: Tally, l: Landed, way: Way, ms: seq<MentionRecord>, n: nat)
    requires n <= |ms|
    ensures MentionsFrom(t.store, MentionsCarried(t, l, way, ms, n).store, l, way, ms, n)
  {
    if n > 0 {
      var i := n - 1;
      AllMentionsFrom(t, l, way, ms, i);
      MentionsArrive(t, l, way, ms, i);
      NextMentionFrom(t.store, MentionsCarried(t, l, way, ms, i), MentionsCarried(t, l, way, ms, n), l, way, ms, i, n);
    }
  }

  lemma {:induction false} RelationNew(t: Tally, l: Landed, way: Way, m: RelationRecord)
    ensures var u := RelationCarried(t, l, way, m).store;
      && (forall k | k in t.store.relations :: k in u.relations && u.relations[k] == t.store.relations[k])
      && (forall k | k in u.relations && k !in t.store.relations ::
            RelationSays(l, t.store.records, way, m, k) && SaidBy(u.relations[k], m.declaredBy, m.at, way.now))
  {
    var u := RelationCarried(t, l, way, m).store;
    forall k | k in u.relations && k !in t.store.relations ensures RelationSays(l, t.store.records, way, m, k) {
      RelationHereIs(l, t.store.records, way, m, k);
    }
  }

  lemma {:induction false} OneMoreRelationFrom(s: Store, t: Store, u: Store, l: Landed, way: Way, ms: seq<RelationRecord>, i: nat, n: nat, m: RelationRecord)
    requires n == i + 1 && n <= |ms| && m == ms[i] && RelationsFrom(s, t, l, way, ms, i)
    requires forall k | k in t.relations :: k in u.relations && u.relations[k] == t.relations[k]
    requires forall k | k in u.relations && k !in t.relations ::
      RelationSays(l, s.records, way, m, k) && SaidBy(u.relations[k], m.declaredBy, m.at, way.now)
    ensures RelationsFrom(s, u, l, way, ms, n)
  {
    forall k | k in u.relations && k !in s.relations ensures exists j ::
      0 <= j < n && RelationSays(l, s.records, way, ms[j], k) && SaidBy(u.relations[k], ms[j].declaredBy, ms[j].at, way.now)
    {
      if k in t.relations {
        var j :| 0 <= j < i && RelationSays(l, s.records, way, ms[j], k) && SaidBy(t.relations[k], ms[j].declaredBy, ms[j].at, way.now);
      }
    }
  }

  lemma {:induction false} NextRelationFrom(s: Store, t: Tally, u: Tally, l: Landed, way: Way, ms: seq<RelationRecord>, i: nat, n: nat)
    requires n == i + 1 && n <= |ms| && u == RelationCarried(t, l, way, ms[i]) && t.store.records == s.records
    requires RelationsFrom(s, t.store, l, way, ms, i)
    ensures RelationsFrom(s, u.store, l, way, ms, n)
  {
    RelationNew(t, l, way, ms[i]);
    OneMoreRelationFrom(s, t.store, u.store, l, way, ms, i, n, ms[i]);
  }

  lemma {:induction false} AllRelationsFrom(t: Tally, l: Landed, way: Way, ms: seq<RelationRecord>, n: nat)
    requires n <= |ms|
    ensures RelationsFrom(t.store, RelationsCarried(t, l, way, ms, n).store, l, way, ms, n)
  {
    if n > 0 {
      var i := n - 1;
      AllRelationsFrom(t, l, way, ms, i);
      RelationsArrive(t, l, way, ms, i);
      NextRelationFrom(t.store, RelationsCarried(t, l, way, ms, i), RelationsCarried(t, l, way, ms, n), l, way, ms, i, n);
    }
  }

  lemma {:induction false} EntityFrom(l: Landed, e: EntityRecord, way: Way)
    requires ValidNames(l.names)
    ensures var y := Land(l, e, way).names;
      forall h | h in y.entities && h !in l.names.entities :: EntitySays(way, e, y.entities[h])
  {
    if Usable(way, e) {
      RegisterPlaces(l.names, ScopeHere(way, e), e.name.value, Stamped(e.declaredBy.value, e.at, way.now), true);
    }
  }

  lemma {:induction false} OneMoreFrom(x: Names, y: Names, z: Names, way: Way, es: seq<EntityRecord>, i: nat, n: nat)
    requires n == i + 1 && n <= |es| && EntitiesFrom(x, y, way, es, i) && Extends(y, z)
    requires forall h | h in z.entities && h !in y.entities :: EntitySays(way, es[i], z.entities[h])
    ensures EntitiesFrom(x, z, way, es, n)
  {
    forall h | h in z.entities && h !in x.entities ensures exists j :: 0 <= j < n && EntitySays(way, es[j], z.entities[h]) {
      if h in y.entities {
        var j :| 0 <= j < i && EntitySays(way, es[j], y.entities[h]);
      }
    }
  }

  lemma {:induction false} AllEntitiesFrom(l: Landed, es: seq<EntityRecord>, n: nat, way: Way)
    requires n <= |es| && ValidNames(l.names)
    ensures EntitiesFrom(l.names, LandAll(l, es, n, way).names, way, es, n)
  {
    if n > 0 {
      var i := n - 1;
      AllEntitiesFrom(l, es, i, way);
      LandAllKeeps(l, es, i, way);
      LandKeeps(LandAll(l, es, i, way), es[i], way);
      EntityFrom(LandAll(l, es, i, way), es[i], way);
      OneMoreFrom(l.names, LandAll(l, es, i, way).names, LandAll(l, es, n, way).names, way, es, i, n);
    }
  }

  /** A new alias is one of a record's, of the entity it landed on, as it is written there. */
  ghost predicate AliasSays(x: Names, l: Landed, e: EntityRecord, h: nat, m: Norm)
    requires (h, m) in x.aliases
  {
    e.id in l.at && l.at[e.id] == h && Some(Term(x.aliases[(h, m)], m)) in e.aliases
  }

  ghost predicate AliasesFrom(x: Names, l: Landed, es: seq<EntityRecord>, n: nat)
    requires n <= |es|
  {
    forall h: nat, m | (h, m) in l.names.aliases && (h, m) !in x.aliases :: exists i :: 0 <= i < n && AliasSays(l.names, l, es[i], h, m)
  }

  lemma {:induction false} AliasesNew(x: Names, e: nat, aliases: seq<Option<Term>>, n: nat, maxAliases: nat)
    requires n <= |aliases| && e in x.entities
    ensures var y := AliasesAttached(x, e, aliases, n, maxAliases).names;
      && (forall k | k in x.aliases :: k in y.aliases && y.aliases[k] == x.aliases[k])
      && forall h: nat, m | (h, m) in y.aliases && (h, m) !in x.aliases :: h == e && Some(Term(y.aliases[(h, m)], m)) in aliases
  {
    if n > 0 {
      var before, alias := AliasesAttached(x, e, aliases, n - 1, maxAliases), if n > maxAliases then None else aliases[n-1];
      AliasesNew(x, e, aliases, n - 1, maxAliases);
      AttachNew(before, e, alias);
      assert n <= maxAliases ==> alias in aliases;
    }
  }

  lemma {:induction false} AttachNew(a: Attached, e: nat, alias: Option<Term>)
    requires e in a.names.entities
    ensures var b := Attach(a, e, alias);
      && (forall k | k in a.names.aliases :: k in b.names.aliases && b.names.aliases[k] == a.names.aliases[k])
      && forall h: nat, m | (h, m) in b.names.aliases && (h, m) !in a.names.aliases ::
           h == e && alias == Some(Term(b.names.aliases[(h, m)], m))
  {
  }

  lemma {:induction false} LandNew(l: Landed, e: EntityRecord, way: Way)
    requires ValidNames(l.names)
    ensures var r := Land(l, e, way);
      && (forall k | k in l.names.aliases :: k in r.names.aliases && r.names.aliases[k] == l.names.aliases[k])
      && (forall id | id in l.at && id != e.id :: id in r.at && r.at[id] == l.at[id])
      && forall h: nat, m | (h, m) in r.names.aliases && (h, m) !in l.names.aliases :: AliasSays(r.names, r, e, h, m)
  {
    if Usable(way, e) {
      var p := EntityPlaced(l.names, e, way);
      RegisterPlaces(l.names, ScopeHere(way, e), e.name.value, Stamped(e.declaredBy.value, e.at, way.now), true);
      AliasesNew(p.names, p.entity, e.aliases, |e.aliases|, |e.aliases|);
    }
  }

  lemma {:induction false} OneMoreAliasFrom(x: Names, l: Landed, r: Landed, es: seq<EntityRecord>, i: nat, n: nat, e: EntityRecord)
    requires n == i + 1 && n <= |es| && e == es[i] && AliasesFrom(x, l, es, i) && forall j | 0 <= j < i :: es[j].id != e.id
    requires forall k | k in l.names.aliases :: k in r.names.aliases && r.names.aliases[k] == l.names.aliases[k]
    requires forall id | id in l.at && id != e.id :: id in r.at && r.at[id] == l.at[id]
    requires forall h: nat, m | (h, m) in r.names.aliases && (h, m) !in l.names.aliases :: AliasSays(r.names, r, e, h, m)
    ensures AliasesFrom(x, r, es, n)
  {
    forall h: nat, m | (h, m) in r.names.aliases && (h, m) !in x.aliases
      ensures exists j :: 0 <= j < n && AliasSays(r.names, r, es[j], h, m)
    {
      if (h, m) in l.names.aliases {
        var j :| 0 <= j < i && AliasSays(l.names, l, es[j], h, m);
        assert AliasSays(r.names, r, es[j], h, m);
      }
    }
  }

  lemma {:induction false} AllAliasesFrom(l: Landed, es: seq<EntityRecord>, n: nat, way: Way)
    requires n <= |es| && ValidNames(l.names) && forall i, j | 0 <= i < j < |es| :: es[i].id != es[j].id
    ensures AliasesFrom(l.names, LandAll(l, es, n, way), es, n)
  {
    if n > 0 {
      var i := n - 1;
      AllAliasesFrom(l, es, i, way);
      LandAllKeeps(l, es, i, way);
      LandNew(LandAll(l, es, i, way), es[i], way);
      OneMoreAliasFrom(l.names, LandAll(l, es, i, way), LandAll(l, es, n, way), es, i, n, es[i]);
    }
  }

  /** An entity's record landed: on the entity of its own scope that answers to its name, which
      has each alias of the record or was refused it for good. */
  ghost predicate EntityThere(x: Names, l: Landed, way: Way, e: EntityRecord) {
    && e.id in l.at && e.name.Some? && Named(x, l.at[e.id], e.name.value.normalized)
    && GoesUnder(way, e.scope.agent, x.entities[l.at[e.id]].scope.agent)
    && x.entities[l.at[e.id]].scope.project == e.scope.project && x.entities[l.at[e.id]].scope.channel == e.scope.channel
    && forall i | 0 <= i < |e.aliases| && e.aliases[i].Some? :: Settled(x, l.at[e.id], e.aliases[i].value.normalized)
  }

  /** An entity's record can be written. */
  predicate Complete(way: Way, e: EntityRecord) {
    e.name.Some? && e.declaredBy.Some? && (way.agent != NoAgent || e.scope.agent != NoAgent)
  }

  /** A carry is faithful: every row that can be written is there as it says, and whatever is
      new is some row's. */
  ghost predicate Faithful(s: Store, g: Bundle, way: Way, c: Carried) {
    && (forall i | 0 <= i < |g.entities| && Complete(way, g.entities[i]) :: EntityThere(c.store.names, c.landed, way, g.entities[i]))
    && (forall i, k | 0 <= i < |g.mentions| && MentionSays(c.landed, s.records, way, g.mentions[i], k) :: k in c.store.mentions)
    && (forall i, k | 0 <= i < |g.relations| && RelationSays(c.landed, s.records, way, g.relations[i], k) :: k in c.store.relations)
    && EntitiesFrom(s.names, c.store.names, way, g.entities, |g.entities|)
    && AliasesFrom(s.names, c.landed, g.entities, |g.entities|) && c.store.names == c.landed.names
    && MentionsFrom(s, c.store, c.landed, way, g.mentions, |g.mentions|)
    && RelationsFrom(s, c.store, c.landed, way, g.relations, |g.relations|)
  }

  lemma {:induction false} RowsAreThere(s: Store, g: Bundle, way: Way, seeds: map<nat, nat>)
    requires ValidNames(s.names) && Keyed(g)
    ensures var c := CarriedGraph(s, g, way, seeds);
      && (forall i | 0 <= i < |g.entities| && Complete(way, g.entities[i]) :: EntityThere(c.store.names, c.landed, way, g.entities[i]))
      && (forall i, k | 0 <= i < |g.mentions| && MentionSays(c.landed, s.records, way, g.mentions[i], k) :: k in c.store.mentions)
      && (forall i, k | 0 <= i < |g.relations| && RelationSays(c.landed, s.records, way, g.relations[i], k) :: k in c.store.relations)
  {
    var c := CarriedGraph(s, g, way, seeds);
    CarryArrives(s, g, way, seeds);
    forall i | 0 <= i < |g.entities| && Complete(way, g.entities[i]) ensures EntityThere(c.store.names, c.landed, way, g.entities[i]) {
      AllLanded(Start(s, seeds), g.entities, |g.entities|, way, i);
    }
    forall i, k | 0 <= i < |g.mentions| && MentionSays(c.landed, s.records, way, g.mentions[i], k) ensures k in c.store.mentions {
      MentionHereIs(c.landed, s.records, way, g.mentions[i], k);
    }
    forall i, k | 0 <= i < |g.relations| && RelationSays(c.landed, s.records, way, g.relations[i], k) ensures k in c.store.relations {
      RelationHereIs(c.landed, s.records, way, g.relations[i], k);
    }
  }

  lemma {:induction false} CarryIsFaithful(s: Store, g: Bundle, way: Way, seeds: map<nat, nat>)
    requires ValidNames(s.names) && Keyed(g)
    ensures Faithful(s, g, way, CarriedGraph(s, g, way, seeds))
  {
    var l := LandAll(Start(s, seeds), g.entities, |g.entities|, way);
    var t := Tally(s.(names := l.names), 0, l.dropped);
    var m := MentionsCarried(t, l, way, g.mentions, |g.mentions|);
    RowsAreThere(s, g, way, seeds);
    AllEntitiesFrom(Start(s, seeds), g.entities, |g.entities|, way);
    AllAliasesFrom(Start(s, seeds), g.entities, |g.entities|, way);
    AllMentionsFrom(t, l, way, g.mentions, |g.mentions|);
    MentionsArrive(t, l, way, g.mentions, |g.mentions|);
    AllRelationsFrom(Tally(m.store, 0, m.dropped), l, way, g.relations, |g.relations|);
    CarryArrives(s, g, way, seeds);
    RelationsArrive(Tally(m.store, 0, m.dropped), l, way, g.relations, |g.relations|);
  }

  // ---- what is counted ------------------------------------------------------------------------

  ghost predicate MentionCanGo(l: Landed, records: map<Ref, Agent>, way: Way, m: MentionRecord) {
    exists k :: MentionSays(l, records, way, m, k)
  }

  ghost function MentionsThatCan(l: Landed, records: map<Ref, Agent>, way: Way, ms: seq<MentionRecord>, n: nat): set<nat>
    requires n <= |ms|
  {
    set i: nat | i < n && MentionCanGo(l, records, way, ms[i])
  }

  lemma {:induction false} MentionCounted(t: Tally, l: Landed, way: Way, m: MentionRecord)
    ensures var u, can := MentionCarried(t, l, way, m), MentionCanGo(l, t.store.records, way, m);
      && u.written == (if can then t.written + 1 else t.written) && u.dropped == (if can then t.dropped else t.dropped + 1)
      && u.store.records == t.store.records
  {
    var here := MentionHere(l, t.store.records, way, m);
    if here.Some? {
      MentionHereIs(l, t.store.records, way, m, here.value);
    } else {
      forall k ensures !MentionSays(l, t.store.records, way, m, k) {
        MentionHereIs(l, t.store.records, way, m, k);
      }
    }
  }

  lemma {:induction false} MentionsCounted(t: Tally, l: Landed, way: Way, ms: seq<MentionRecord>, n: nat)
    requires n <= |ms|
    ensures var r := MentionsCarried(t, l, way, ms, n);
      && r.written == t.written + |MentionsThatCan(l, t.store.records, way, ms, n)|
      && r.written + r.dropped == t.written + t.dropped + n && r.store.records == t.store.records
  {
    if n > 0 {
      var i := n - 1;
      MentionsCounted(t, l, way, ms, i);
      MentionCounted(MentionsCarried(t, l, way, ms, i), l, way, ms[i]);
      OneMoreIn(MentionsThatCan(l, t.store.records, way, ms, i), MentionsThatCan(l, t.store.records, way, ms, n), i,
                MentionCanGo(l, t.store.records, way, ms[i]));
    }
  }

  ghost predicate RelationCanGo(l: Landed, records: map<Ref, Agent>, way: Way, m: RelationRecord) {
    exists k :: RelationSays(l, records, way, m, k)
  }

  ghost function RelationsThatCan(l: Landed, records: map<Ref, Agent>, way: Way, ms: seq<RelationRecord>, n: nat): set<nat>
    requires n <= |ms|
  {
    set i: nat | i < n && RelationCanGo(l, records, way, ms[i])
  }

  lemma {:induction false} RelationCounted(t: Tally, l: Landed, way: Way, m: RelationRecord)
    ensures var u, can := RelationCarried(t, l, way, m), RelationCanGo(l, t.store.records, way, m);
      && u.written == (if can then t.written + 1 else t.written) && u.dropped == (if can then t.dropped else t.dropped + 1)
      && u.store.records == t.store.records
  {
    var here := RelationHere(l, t.store.records, way, m);
    if here.Some? {
      RelationHereIs(l, t.store.records, way, m, here.value);
    } else {
      forall k ensures !RelationSays(l, t.store.records, way, m, k) {
        RelationHereIs(l, t.store.records, way, m, k);
      }
    }
  }

  lemma {:induction false} RelationsCounted(t: Tally, l: Landed, way: Way, ms: seq<RelationRecord>, n: nat)
    requires n <= |ms|
    ensures var r := RelationsCarried(t, l, way, ms, n);
      && r.written == t.written + |RelationsThatCan(l, t.store.records, way, ms, n)|
      && r.written + r.dropped == t.written + t.dropped + n && r.store.records == t.store.records
  {
    if n > 0 {
      var i := n - 1;
      RelationsCounted(t, l, way, ms, i);
      RelationCounted(RelationsCarried(t, l, way, ms, i), l, way, ms[i]);
      OneMoreIn(RelationsThatCan(l, t.store.records, way, ms, i), RelationsThatCan(l, t.store.records, way, ms, n), i,
                RelationCanGo(l, t.store.records, way, ms[i]));
    }
  }

  ghost function EntitiesThatCan(way: Way, es: seq<EntityRecord>, n: nat): set<nat>
    requires n <= |es|
  {
    set i: nat | i < n && Complete(way, es[i])
  }

  lemma {:induction false} EntitiesCounted(l: Landed, es: seq<EntityRecord>, n: nat, way: Way)
    requires n <= |es|
    ensures var r := LandAll(l, es, n, way);
      r.carried == l.carried + |EntitiesThatCan(way, es, n)| && r.carried + r.dropped == l.carried + l.dropped + n
  {
    if n > 0 {
      var i := n - 1;
      EntitiesCounted(l, es, i, way);
      OneMoreIn(EntitiesThatCan(way, es, i), EntitiesThatCan(way, es, n), i, Complete(way, es[i]));
    }
  }

  /** What can be written is counted as written, and the rest of the graph as dropped. */
  ghost predicate Counted(s: Store, g: Bundle, way: Way, c: Carried) {
    && c.landed.carried == |EntitiesThatCan(way, g.entities, |g.entities|)|
    && c.mentions == |MentionsThatCan(c.landed, s.records, way, g.mentions, |g.mentions|)|
    && c.relations == |RelationsThatCan(c.landed, s.records, way, g.relations, |g.relations|)|
    && c.landed.carried + c.mentions + c.relations + c.dropped == |g.entities| + |g.mentions| + |g.relations|
  }

  lemma {:induction false} CarryIsCounted(s: Store, g: Bundle, way: Way, seeds: map<nat, nat>)
    ensures Counted(s, g, way, CarriedGraph(s, g, way, seeds))
  {
    var l := LandAll(Start(s, seeds), g.entities, |g.entities|, way);
    var t := Tally(s.(names := l.names), 0, l.dropped);
    EntitiesCounted(Start(s, seeds), g.entities, |g.entities|, way);
    MentionsCounted(t, l, way, g.mentions, |g.mentions|);
    var m := MentionsCarried(t, l, way, g.mentions, |g.mentions|);
    RelationsCounted(Tally(m.store, 0, m.dropped), l, way, g.relations, |g.relations|);
  }

  // ---- the code -------------------------------------------------------------------------------

  method LandEntity(db: GraphDb, l: Landed, e: EntityRecord, way: Way) returns (now: Landed)
    requires ValidNames(db.Now().names) && l.names == db.Now().names
    modifies db
    ensures now == Land(l, e, way) && db.Now() == old(db.Now()).(names := now.names)
  {
    if e.name.None? || e.declaredBy.None? || Owner(way, e.scope.agent) == NoAgent {
      return l.(dropped := l.dropped + 1);
    }
    var scope := e.scope.(agent := Owner(way, e.scope.agent));
    var here := PlaceEntity(db, scope, e, way);
    var refused := db.AddAliases(scope, here, e.aliases, |e.aliases|);
    now := Landed(db.Now().names, l.at[e.id := here], l.owners[e.id := scope.agent], l.carried + 1, l.dropped,
                  l.aliasesDropped + refused, if refused > 0 then l.incomplete + {e.id} else l.incomplete);
  }

  method PlaceEntity(db: GraphDb, scope: Scope, e: EntityRecord, way: Way) returns (here: nat)
    requires ValidNames(db.Now().names) && Usable(way, e) && scope == ScopeHere(way, e)
    modifies db
    ensures var p := EntityPlaced(old(db.Now()).names, e, way);
      && here == p.entity && db.Now() == old(db.Now()).(names := p.names)
      && ValidNames(p.names) && p.names.entities[here].scope == scope
  {
    var note := Stamped(e.declaredBy.value, e.at, way.now);
    RegisterExtends(db.Now().names, scope, e.name.value, note, true);
    var created;
    here, created := db.RegisterEntity(scope, e.name.value, note, true);
  }

  lemma {:induction false} CarryIsTold(s: Store, g: Bundle, way: Way, seeds: map<nat, nat>)
    requires ValidNames(s.names)
    ensures Keyed(g) ==> Faithful(s, g, way, CarriedGraph(s, g, way, seeds))
    ensures Counted(s, g, way, CarriedGraph(s, g, way, seeds))
  {
    if Keyed(g) {
      CarryIsFaithful(s, g, way, seeds);
    }
    CarryIsCounted(s, g, way, seeds);
  }

  method CarryEntities(db: GraphDb, es: seq<EntityRecord>, way: Way, seeds: map<nat, nat>) returns (l: Landed)
    requires ValidNames(db.Now().names)
    modifies db
    ensures l == LandAll(Start(old(db.Now()), seeds), es, |es|, way) && db.Now() == old(db.Now()).(names := l.names)
  {
    ghost var s := db.Now();
    l := Start(db.Now(), seeds);
    var i := 0;
    while i < |es|
      invariant 0 <= i <= |es| && l == LandAll(Start(s, seeds), es, i, way)
      invariant db.Now() == s.(names := l.names)
    {
      LandAllKeeps(Start(s, seeds), es, i, way);
      l := LandEntity(db, l, es[i], way);
      i := i + 1;
    }
  }

  /** Write a graph into the store, in one transaction. */
  method CarryGraph(db: GraphDb, g: Bundle, way: Way, seeds: map<nat, nat>) returns (c: Carried)
    requires ValidNames(db.Now().names)
    modifies db
    ensures c == CarriedGraph(old(db.Now()), g, way, seeds) && db.Now() == c.store
    ensures Keyed(g) ==> Faithful(old(db.Now()), g, way, c)
    ensures Counted(old(db.Now()), g, way, c)
  {
    CarryIsTold(db.Now(), g, way, seeds);
    var l := CarryEntities(db, g.entities, way, seeds);
    var mentions, dropped := CarryMentions(db, g.mentions, l, way, l.dropped);
    var relations, lost := CarryRelations(db, g.relations, l, way, dropped);
    c := Carried(db.Now(), l, mentions, relations, lost);
  }

  method CarryMentions(db: GraphDb, ms: seq<MentionRecord>, l: Landed, way: Way, dropped: nat)
      returns (written: nat, lost: nat)
    modifies db
    ensures Tally(db.Now(), written, lost) == MentionsCarried(Tally(old(db.Now()), 0, dropped), l, way, ms, |ms|)
  {
    written, lost := 0, dropped;
    var i := 0;
    while i < |ms|
      invariant 0 <= i <= |ms|
      invariant Tally(db.Now(), written, lost) == MentionsCarried(Tally(old(db.Now()), 0, dropped), l, way, ms, i)
    {
      var k := MentionHere(l, db.records, way, ms[i]);
      if k.None? {
        lost := lost + 1;
      } else {
        db.AddMention(k.value.0, k.value.1, Stamped(ms[i].declaredBy.value, ms[i].at, way.now));
        written := written + 1;
      }
      i := i + 1;
    }
  }

  method CarryRelations(db: GraphDb, rs: seq<RelationRecord>, l: Landed, way: Way, dropped: nat)
      returns (written: nat, lost: nat)
    modifies db
    ensures Tally(db.Now(), written, lost) == RelationsCarried(Tally(old(db.Now()), 0, dropped), l, way, rs, |rs|)
  {
    written, lost := 0, dropped;
    var i := 0;
    while i < |rs|
      invariant 0 <= i <= |rs|
      invariant Tally(db.Now(), written, lost) == RelationsCarried(Tally(old(db.Now()), 0, dropped), l, way, rs, i)
    {
      var k := RelationHere(l, db.records, way, rs[i]);
      if k.None? {
        lost := lost + 1;
      } else {
        db.AddRelation(k.value, Stamped(rs[i].declaredBy.value, rs[i].at, way.now));
        written := written + 1;
      }
      i := i + 1;
    }
  }
}
