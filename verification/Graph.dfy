/** The declared graph (cpersona/associations.py and the tables and triggers of
    cpersona/database.py): entities and their aliases, the records that mention them, and
    relations; and the scoped resolution of a name. */
module Graph {
  import opened Common

  datatype Agent = NoAgent | Agent(name: string)

  /** The scope axes; the empty string is the axis's shared value. */
  datatype Project = AnyProject | Project(name: string)
  datatype Channel = AnyChannel | Channel(name: string)

  datatype Scope = Scope(agent: Agent, project: Project, channel: Channel)

  /** Text as lookups compare it; `Blank` when nothing is left of it. */
  datatype Norm = Blank | Norm(text: string)

  /** A declared string within the length bound, as written and as compared. */
  datatype Term = Term(written: string, normalized: Norm)

  datatype By = ByAgent | ByOperator
  datatype Note = Note(declaredBy: By, at: int)

  datatype Entity = Entity(scope: Scope, name: Term, note: Note)

  /** `mem:<id>` and `ep:<id>`. */
  datatype Ref = Mem(id: nat) | Ep(id: nat)

  /** An end of a relation. */
  datatype End = Thing(entity: nat) | Item(ref: Ref)

  /** A relation by the columns that identify it. */
  datatype Relation = Relation(scope: Scope, subject: End, verb: Norm, target: End, anchor: Option<Ref>)

  /** The entity and alias tables; `last` is the highest id ever given. */
  datatype Names = Names(entities: map<nat, Entity>, aliases: map<(nat, Norm), string>, last: nat)

  /** The declarations, and which records exist and whose they are. */
  datatype Store = Store(
    names: Names,
    mentions: map<(nat, Ref), Note>,
    relations: map<Relation, Note>,
    records: map<Ref, Agent>)

  // ---- names -----------------------------------------------------------------------------

  /** An entity answers to its name and its aliases. */
  predicate Named(x: Names, e: nat, n: Norm) {
    e in x.entities && (x.entities[e].name.normalized == n || (e, n) in x.aliases)
  }

  predicate Owns(x: Names, scope: Scope, n: Norm, e: nat) {
    Named(x, e, n) && x.entities[e].scope == scope
  }

  /** What the schema cannot hold: within one exact scope a name or alias belongs to at most
      one entity. */
  ghost predicate OneOwner(x: Names) {
    forall a, b, n | Named(x, a, n) && Named(x, b, n) && x.entities[a].scope == x.entities[b].scope :: a == b
  }

  ghost predicate ValidNames(x: Names) {
    && OneOwner(x)
    && (forall e | e in x.entities :: e <= x.last)
    && (forall e, n | (e, n) in x.aliases :: e in x.entities)
  }

  /** The lowest id from `from` on that answers to `n` in one exact scope. */
  function OwnerFrom(x: Names, scope: Scope, n: Norm, from: nat): (r: Option<nat>)
    ensures r.Some? ==> from <= r.value <= x.last && Owns(x, scope, n, r.value)
    ensures r.Some? ==> forall e | from <= e < r.value :: !Owns(x, scope, n, e)
    ensures r.None? ==> forall e | from <= e <= x.last :: !Owns(x, scope, n, e)
    decreases x.last + 1 - from
  {
    if from > x.last then None
    else if Owns(x, scope, n, from) then Some(from)
    else OwnerFrom(x, scope, n, from + 1)
  }

  /** The scopes a reader of `scope` sees, most specific first. */
  function VisibleScopes(scope: Scope): (r: seq<Scope>) {
    var projects := if scope.project != AnyProject then [scope.project, AnyProject] else [AnyProject];
    var channels := if scope.channel != AnyChannel then [scope.channel, AnyChannel] else [AnyChannel];
    InScopes(scope.agent, projects[0], channels)
      + if |projects| > 1 then InScopes(scope.agent, projects[1], channels) else []
  }

  function InScopes(agent: Agent, project: Project, channels: seq<Channel>): (r: seq<Scope>)
    ensures |r| == |channels|
    ensures forall i | 0 <= i < |r| :: r[i] == Scope(agent, project, channels[i])
  {
    if channels == [] then [] else [Scope(agent, project, channels[0])] + InScopes(agent, project, channels[1..])
  }

  /** A reader of a scope sees a scope exactly when each axis is its own or the empty one;
      its own comes first, and none is listed twice. */
  lemma {:induction false} VisibleScopesAre(scope: Scope)
    ensures VisibleScopes(scope)[0] == scope
    ensures forall sc :: sc in VisibleScopes(scope) <==>
      sc.agent == scope.agent && (sc.project == scope.project || sc.project == AnyProject)
        && (sc.channel == scope.channel || sc.channel == AnyChannel)
    ensures forall i, j | 0 <= i < j < |VisibleScopes(scope)| :: VisibleScopes(scope)[i] != VisibleScopes(scope)[j]
  {
    var v := VisibleScopes(scope);
    var a, p, c := scope.agent, scope.project, scope.channel;
    var none, all := AnyProject, AnyChannel;
    if p != none && c != all {
      assert v == [Scope(a, p, c), Scope(a, p, all), Scope(a, none, c), Scope(a, none, all)];
    } else if p != none {
      assert v == [Scope(a, p, all), Scope(a, none, all)];
    } else if c != all {
      assert v == [Scope(a, none, c), Scope(a, none, all)];
    } else {
      assert v == [Scope(a, none, all)];
    }
  }

  /** The entity a name resolves to: the owner in the first scope that has one. */
  function Resolve(x: Names, scopes: seq<Scope>, n: Norm): (r: Option<nat>)
    ensures r.Some? ==> Named(x, r.value, n) && x.entities[r.value].scope in scopes
  {
    if scopes == [] then None
    else match OwnerFrom(x, scopes[0], n, 0)
      case Some(e) => Some(e)
      case None => Resolve(x, scopes[1..], n)
  }

  lemma {:induction false} ResolvesNowhere(x: Names, scopes: seq<Scope>, n: Norm)
    requires ValidNames(x)
    ensures Resolve(x, scopes, n).None? <==> forall e, sc | sc in scopes :: !Owns(x, sc, n, e)
  {
    if scopes != [] {
      ResolvesNowhere(x, scopes[1..], n);
      if Resolve(x, scopes, n).Some? {
        var e := Resolve(x, scopes, n).value;
        assert Owns(x, x.entities[e].scope, n, e);
      } else {
        forall e, sc | sc in scopes ensures !Owns(x, sc, n, e) {
          assert sc == scopes[0] || sc in scopes[1..];
        }
      }
    }
  }

  /** An owner in the exact scope is what a name resolves to, whatever wider scopes hold. */
  lemma {:induction false} ExactFirst(x: Names, scope: Scope, n: Norm, e: nat)
    requires ValidNames(x) && Owns(x, scope, n, e)
    ensures Resolve(x, [scope], n) == Some(e)
    ensures Resolve(x, VisibleScopes(scope), n) == Some(e)
  {
    VisibleScopesAre(scope);
  }

  /** Why an alias is not attached to an entity. */
  predicate Declines(x: Names, e: nat, n: Norm)
    requires e in x.entities
  {
    n == Blank ||
      var owner := Resolve(x, VisibleScopes(x.entities[e].scope), n);
      owner.Some? && owner.value != e
  }

  /** An alias is refused exactly when it is empty or something else its reader sees has
      it and the entity does not. */
  lemma {:induction false} DeclinesExactlyWhen(x: Names, e: nat, n: Norm)
    requires ValidNames(x) && e in x.entities
    ensures Declines(x, e, n) <==>
      n == Blank || (!Named(x, e, n) && SeenElsewhere(x, x.entities[e].scope, n))
  {
    var scope := x.entities[e].scope;
    VisibleScopesAre(scope);
    ResolvesNowhere(x, VisibleScopes(scope), n);
    if Named(x, e, n) {
      ExactFirst(x, scope, n, e);
    }
  }

  ghost predicate SeenElsewhere(x: Names, scope: Scope, n: Norm) {
    exists e, sc :: sc in VisibleScopes(scope) && Owns(x, sc, n, e)
  }

  // ---- writing names --------------------------------------------------------------------

  function Registered(x: Names, scope: Scope, name: Term, note: Note): Names {
    x.(entities := x.entities[x.last + 1 := Entity(scope, name, note)], last := x.last + 1)
  }

  datatype Placed = Placed(names: Names, entity: nat, created: bool)

  /** Reuse the entity a name resolves to, or register it in the exact scope. */
  function Register(x: Names, scope: Scope, name: Term, note: Note, exact: bool): Placed {
    match Resolve(x, if exact then [scope] else VisibleScopes(scope), name.normalized)
    case Some(e) => Placed(x, e, false)
    case None => Placed(Registered(x, scope, name, note), x.last + 1, true)
  }

  /** INSERT OR IGNORE of an alias. */
  function Aliased(x: Names, e: nat, alias: Term): Names {
    if (e, alias.normalized) in x.aliases then x
    else x.(aliases := x.aliases[(e, alias.normalized) := alias.written])
  }

  /** What every write of a name keeps: what was there, one owner a scope, ids
      never given before, and every refusal already given. */
  ghost predicate Extends(x: Names, y: Names) {
    && ValidNames(x) && ValidNames(y) && x.last <= y.last
    && (forall e | e in x.entities :: e in y.entities && y.entities[e] == x.entities[e])
    && (forall e | e in y.entities && e !in x.entities :: e > x.last)
    && (forall k | k in x.aliases :: k in y.aliases && y.aliases[k] == x.aliases[k])
    && (forall e, n | e in x.entities && Declines(x, e, n) :: Declines(y, e, n))
  }

  lemma {:induction false} ExtendsTwice(x: Names, y: Names, z: Names)
    requires Extends(x, y) && Extends(y, z)
    ensures Extends(x, z)
  {
  }

  /** Growth keeps a refusal as long as the entity does not take the name itself. */
  lemma {:induction false} RefusalStays(x: Names, y: Names, e: nat, n: Norm)
    requires ValidNames(x) && ValidNames(y) && e in x.entities && Declines(x, e, n)
    requires forall a | a in x.entities :: a in y.entities && y.entities[a] == x.entities[a]
    requires forall k | k in x.aliases :: k in y.aliases
    requires Named(y, e, n) ==> Named(x, e, n)
    ensures Declines(y, e, n)
  {
    DeclinesExactlyWhen(x, e, n);
    DeclinesExactlyWhen(y, e, n);
    if n != Blank {
      var a, sc :| sc in VisibleScopes(x.entities[e].scope) && Owns(x, sc, n, a);
      assert Owns(y, sc, n, a);
    }
  }

  lemma {:induction false} OneOwnerRegistering(x: Names, scope: Scope, name: Term, note: Note)
    requires ValidNames(x) && forall e :: !Owns(x, scope, name.normalized, e)
    ensures ValidNames(Registered(x, scope, name, note))
    ensures forall e: nat, n | e in x.entities :: Named(Registered(x, scope, name, note), e, n) == Named(x, e, n)
  {
    var y := Registered(x, scope, name, note);
    forall a: nat, b: nat, n | Named(y, a, n) && Named(y, b, n) && y.entities[a].scope == y.entities[b].scope
      ensures a == b
    {
      assert a in x.entities ==> Named(x, a, n) && Owns(x, x.entities[a].scope, n, a);
      assert b in x.entities ==> Named(x, b, n) && Owns(x, x.entities[b].scope, n, b);
    }
  }

  /** A new entity under a name its exact scope does not have keeps one owner a scope. */
  lemma {:induction false} RegisteringExtends(x: Names, scope: Scope, name: Term, note: Note)
    requires ValidNames(x) && Resolve(x, [scope], name.normalized).None?
    ensures Extends(x, Registered(x, scope, name, note))
    ensures Owns(Registered(x, scope, name, note), scope, name.normalized, x.last + 1)
  {
    var y := Registered(x, scope, name, note);
    ResolvesNowhere(x, [scope], name.normalized);
    assert scope in [scope];
    OneOwnerRegistering(x, scope, name, note);
    forall e, n | e in x.entities && Declines(x, e, n) ensures Declines(y, e, n) {
      RefusalStays(x, y, e, n);
    }
  }

  /** Placing a name keeps everything said before and leaves an entity of the agent that
      answers to it; with `exact`, of that very scope. */
  lemma {:induction false} RegisterExtends(x: Names, scope: Scope, name: Term, note: Note, exact: bool)
    requires ValidNames(x)
    ensures var r := Register(x, scope, name, note, exact);
      && Extends(x, r.names) && Named(r.names, r.entity, name.normalized)
      && r.names.entities[r.entity].scope in VisibleScopes(scope)
      && (exact || r.created ==> r.names.entities[r.entity].scope == scope)
  {
    VisibleScopesAre(scope);
    if Resolve(x, if exact then [scope] else VisibleScopes(scope), name.normalized).None? {
      ResolvesNowhere(x, if exact then [scope] else VisibleScopes(scope), name.normalized);
      ResolvesNowhere(x, [scope], name.normalized);
      RegisteringExtends(x, scope, name, note);
    }
  }

  ghost predicate HasOwner(x: Names, scope: Scope, n: Norm) {
    exists e :: Owns(x, scope, n, e)
  }

  /** An owner in the first of these scopes that has one. */
  ghost predicate FirstOwner(x: Names, scopes: seq<Scope>, n: Norm, e: nat) {
    exists i: nat :: i < |scopes| && Owns(x, scopes[i], n, e) && forall j | 0 <= j < i :: !HasOwner(x, scopes[j], n)
  }

  /** How a name is placed: on the owner in the first scope that has one, and then nothing is
      written; where none has, as a new entity of the exact scope with this name and note. */
  ghost predicate PlacedAs(x: Names, y: Names, e: nat, created: bool, scopes: seq<Scope>, scope: Scope, name: Term, note: Note) {
    if created then
      && (forall i | 0 <= i < |scopes| :: !HasOwner(x, scopes[i], name.normalized))
      && e !in x.entities && y.aliases == x.aliases && e == y.last == x.last + 1
      && (forall a :: a in y.entities <==> a in x.entities || a == e)
      && (forall a | a in x.entities :: y.entities[a] == x.entities[a])
      && y.entities[e].scope == scope && y.entities[e].name == name && y.entities[e].note == note
    else y == x && FirstOwner(x, scopes, name.normalized, e)
  }

  lemma {:induction false} ResolvesFirst(x: Names, scopes: seq<Scope>, n: Norm)
    requires ValidNames(x)
    ensures match Resolve(x, scopes, n)
      case Some(e) => FirstOwner(x, scopes, n, e)
      case None => forall i | 0 <= i < |scopes| :: !HasOwner(x, scopes[i], n)
  {
    if scopes != [] && OwnerFrom(x, scopes[0], n, 0).None? {
      assert !HasOwner(x, scopes[0], n);
      ResolvesFirst(x, scopes[1..], n);
      if Resolve(x, scopes, n).Some? {
        var e := Resolve(x, scopes, n).value;
        var i: nat :| i < |scopes[1..]| && Owns(x, scopes[1..][i], n, e) && forall j | 0 <= j < i :: !HasOwner(x, scopes[1..][j], n);
        FirstOfRest(x, scopes, n, e, i, i + 1);
      } else {
        forall i | 0 <= i < |scopes| ensures !HasOwner(x, scopes[i], n) {
          assert i > 0 ==> scopes[i] == scopes[1..][i-1];
        }
      }
    } else if scopes != [] {
      assert Owns(x, scopes[0], n, OwnerFrom(x, scopes[0], n, 0).value);
    }
  }

  lemma {:induction false} FirstOfRest(x: Names, scopes: seq<Scope>, n: Norm, e: nat, i: nat, next: nat)
    requires next == i + 1 && next < |scopes| && Owns(x, scopes[next], n, e) && !HasOwner(x, scopes[0], n)
    requires forall j | 0 <= j < i :: !HasOwner(x, scopes[1..][j], n)
    ensures FirstOwner(x, scopes, n, e)
  {
    forall j | 0 <= j < next ensures !HasOwner(x, scopes[j], n) {
      assert j > 0 ==> scopes[j] == scopes[1..][j-1];
    }
  }

  lemma {:induction false} RegisterPlaces(x: Names, scope: Scope, name: Term, note: Note, exact: bool)
    requires ValidNames(x)
    ensures var r := Register(x, scope, name, note, exact);
      PlacedAs(x, r.names, r.entity, r.created, if exact then [scope] else VisibleScopes(scope), scope, name, note)
  {
    ResolvesFirst(x, if exact then [scope] else VisibleScopes(scope), name.normalized);
  }

  lemma {:induction false} OneOwnerAliasing(x: Names, e: nat, alias: Term)
    requires ValidNames(x) && e in x.entities
    requires Named(x, e, alias.normalized) || forall a :: !Owns(x, x.entities[e].scope, alias.normalized, a)
    ensures ValidNames(Aliased(x, e, alias))
    ensures forall a: nat, n | (a, n) != (e, alias.normalized) :: Named(Aliased(x, e, alias), a, n) == Named(x, a, n)
  {
    var y, scope, m := Aliased(x, e, alias), x.entities[e].scope, alias.normalized;
    forall a: nat, b: nat, n | Named(y, a, n) && Named(y, b, n) && y.entities[a].scope == y.entities[b].scope
      ensures a == b
    {
      assert (a, n) != (e, m) ==> Named(x, a, n) && Owns(x, x.entities[a].scope, n, a);
      assert (b, n) != (e, m) ==> Named(x, b, n) && Owns(x, x.entities[b].scope, n, b);
    }
  }

  /** An alias that is not refused keeps one owner a scope. */
  lemma {:induction false} AliasingExtends(x: Names, e: nat, alias: Term)
    requires ValidNames(x) && e in x.entities && !Declines(x, e, alias.normalized)
    ensures Extends(x, Aliased(x, e, alias))
    ensures (e, alias.normalized) in Aliased(x, e, alias).aliases
  {
    var y := Aliased(x, e, alias);
    DeclinesExactlyWhen(x, e, alias.normalized);
    VisibleScopesAre(x.entities[e].scope);
    OneOwnerAliasing(x, e, alias);
    forall a, n | a in x.entities && Declines(x, a, n) ensures Declines(y, a, n) {
      RefusalStays(x, y, a, n);
    }
  }

  datatype Attached = Attached(names: Names, dropped: nat)

  /** One alias tried; None where it is past the bound or unusable. */
  function Attach(a: Attached, e: nat, alias: Option<Term>): (r: Attached)
    requires e in a.names.entities
    ensures r.names.entities == a.names.entities
  {
    if alias.None? || Declines(a.names, e, alias.value.normalized) then a.(dropped := a.dropped + 1)
    else a.(names := Aliased(a.names, e, alias.value))
  }

  /** The first `n` aliases of an entity. */
  function AliasesAttached(x: Names, e: nat, aliases: seq<Option<Term>>, n: nat, maxAliases: nat): (r: Attached)
    requires n <= |aliases| && e in x.entities
    ensures r.names.entities == x.entities
  {
    if n == 0 then Attached(x, 0)
    else Attach(AliasesAttached(x, e, aliases, n - 1, maxAliases), e, if n > maxAliases then None else aliases[n-1])
  }

  lemma {:induction false} AliasKeeps(x: Names, e: nat, aliases: seq<Option<Term>>, n: nat, maxAliases: nat)
    requires 0 < n <= |aliases| && e in x.entities
    requires ValidNames(AliasesAttached(x, e, aliases, n - 1, maxAliases).names)
    ensures Extends(AliasesAttached(x, e, aliases, n - 1, maxAliases).names, AliasesAttached(x, e, aliases, n, maxAliases).names)
    ensures n <= maxAliases && aliases[n-1].Some? ==>
      Settled(AliasesAttached(x, e, aliases, n, maxAliases).names, e, aliases[n-1].value.normalized)
  {
    var y := AliasesAttached(x, e, aliases, n - 1, maxAliases).names;
    if n <= maxAliases && aliases[n-1].Some? && !Declines(y, e, aliases[n-1].value.normalized) {
      AliasingExtends(y, e, aliases[n-1].value);
    }
  }

  /** An alias is attached, or refused for good. */
  predicate Settled(x: Names, e: nat, n: Norm) {
    e in x.entities && ((e, n) in x.aliases || Declines(x, e, n))
  }

  lemma {:induction false} AliasesKeep(x: Names, e: nat, aliases: seq<Option<Term>>, n: nat, maxAliases: nat)
    requires n <= |aliases| && e in x.entities && ValidNames(x)
    ensures Extends(x, AliasesAttached(x, e, aliases, n, maxAliases).names)
  {
    if n > 0 {
      AliasesKeep(x, e, aliases, n - 1, maxAliases);
      AliasKeeps(x, e, aliases, n, maxAliases);
      ExtendsTwice(x, AliasesAttached(x, e, aliases, n - 1, maxAliases).names, AliasesAttached(x, e, aliases, n, maxAliases).names);
    }
  }

  lemma {:induction false} SettledStays(x: Names, y: Names, e: nat, n: Norm)
    requires Extends(x, y) && Settled(x, e, n)
    ensures Settled(y, e, n)
  {
  }

  lemma {:induction false} OneMoreAlias(x: Names, e: nat, aliases: seq<Option<Term>>, n: nat, maxAliases: nat, m: Norm)
    requires 0 < n <= |aliases| && e in x.entities && ValidNames(x)
    ensures Settled(AliasesAttached(x, e, aliases, n - 1, maxAliases).names, e, m)
      ==> Settled(AliasesAttached(x, e, aliases, n, maxAliases).names, e, m)
    ensures n <= maxAliases && aliases[n-1].Some? && aliases[n-1].value.normalized == m
      ==> Settled(AliasesAttached(x, e, aliases, n, maxAliases).names, e, m)
  {
    var y := AliasesAttached(x, e, aliases, n - 1, maxAliases).names;
    AliasesKeep(x, e, aliases, n - 1, maxAliases);
    AliasKeeps(x, e, aliases, n, maxAliases);
    if Settled(y, e, m) {
      SettledStays(y, AliasesAttached(x, e, aliases, n, maxAliases).names, e, m);
    }
  }

  /** Each alias within the bound is attached or stays refused. */
  lemma {:induction false} AliasesSettled(x: Names, e: nat, aliases: seq<Option<Term>>, n: nat, maxAliases: nat, i: nat)
    requires i < n <= |aliases| && e in x.entities && ValidNames(x) && i < maxAliases && aliases[i].Some?
    ensures Settled(AliasesAttached(x, e, aliases, n, maxAliases).names, e, aliases[i].value.normalized)
  {
    OneMoreAlias(x, e, aliases, n, maxAliases, aliases[i].value.normalized);
    if i < n - 1 {
      AliasesSettled(x, e, aliases, n - 1, maxAliases, i);
    }
  }

  // ---- the whole store --------------------------------------------------------------------

  predicate IsRecordOf(s: Store, ref: Ref, agent: Agent) {
    ref in s.records && s.records[ref] == agent
  }

  /** An end exists, and a record end is the agent's. */
  predicate EndStands(s: Store, end: End, agent: Agent) {
    match end
    case Thing(e) => e in s.names.entities
    case Item(ref) => IsRecordOf(s, ref, agent)
  }

  predicate RelationStands(s: Store, r: Relation) {
    && EndStands(s, r.subject, r.scope.agent)
    && EndStands(s, r.target, r.scope.agent)
    && (r.anchor.Some? ==> IsRecordOf(s, r.anchor.value, r.scope.agent))
  }

  predicate MentionStands(s: Store, e: nat, ref: Ref) {
    e in s.names.entities && IsRecordOf(s, ref, s.names.entities[e].scope.agent)
  }

  /** One owner a scope, and every declaration about records that exist in its agent's store. */
  ghost predicate Valid(s: Store) {
    && ValidNames(s.names)
    && (forall e, ref | (e, ref) in s.mentions :: MentionStands(s, e, ref))
    && (forall r | r in s.relations :: RelationStands(s, r))
  }

  function Mentioned(s: Store, e: nat, ref: Ref, note: Note): Store {
    if (e, ref) in s.mentions then s else s.(mentions := s.mentions[(e, ref) := note])
  }

  function Related(s: Store, r: Relation, note: Note): Store {
    if r in s.relations then s else s.(relations := s.relations[r := note])
  }

  predicate Touches(r: Relation, end: End) {
    r.subject == end || r.target == end
  }

  /** Deleting an entity, with the delete trigger's cascade. */
  function WithoutEntity(s: Store, e: nat): Store {
    Store(
      Names(s.names.entities - {e},
            map k | k in s.names.aliases && k.0 != e :: s.names.aliases[k],
            s.names.last),
      map k | k in s.mentions && k.0 != e :: s.mentions[k],
      map r | r in s.relations && !Touches(r, Thing(e)) :: s.relations[r],
      s.records)
  }

  /** Deleting a record, with the delete trigger's cascade. */
  function WithoutRecord(s: Store, ref: Ref): Store {
    s.(
      mentions := map k | k in s.mentions && k.1 != ref :: s.mentions[k],
      relations := map r | r in s.relations && !Touches(r, Item(ref)) && r.anchor != Some(ref) :: s.relations[r],
      records := s.records - {ref})
  }

  lemma {:induction false} DeletingKeepsNames(s: Store, e: nat)
    requires ValidNames(s.names)
    ensures ValidNames(WithoutEntity(s, e).names)
  {
    var y := WithoutEntity(s, e).names;
    assert forall a: nat, n :: Named(y, a, n) ==> Named(s.names, a, n) && y.entities[a] == s.names.entities[a];
  }

  lemma {:induction false} DeletingKeepsValid(s: Store, e: nat)
    requires Valid(s)
    ensures Valid(WithoutEntity(s, e))
  {
    DeletingKeepsNames(s, e);
    var t := WithoutEntity(s, e);
    forall r | r in t.relations ensures RelationStands(t, r) {
      assert RelationStands(s, r);
    }
    forall a, ref | (a, ref) in t.mentions ensures MentionStands(t, a, ref) {
      assert MentionStands(s, a, ref);
    }
  }

  lemma {:induction false} ForgettingKeepsValid(s: Store, ref: Ref)
    requires Valid(s)
    ensures Valid(WithoutRecord(s, ref))
  {
    var t := WithoutRecord(s, ref);
    forall r | r in t.relations ensures RelationStands(t, r) {
      assert RelationStands(s, r);
    }
    forall a, x | (a, x) in t.mentions ensures MentionStands(t, a, x) {
      assert MentionStands(s, a, x);
    }
  }

  /** The first store's declarations are all in the second. */
  ghost predicate Grows(s: Store, t: Store) {
    && Extends(s.names, t.names)
    && (forall k | k in s.mentions :: k in t.mentions && t.mentions[k] == s.mentions[k])
    && (forall r | r in s.relations :: r in t.relations && t.relations[r] == s.relations[r])
    && t.records == s.records
  }

  lemma {:induction false} GrowsTwice(s: Store, t: Store, u: Store)
    requires Grows(s, t) && Grows(t, u)
    ensures Grows(s, u)
  {
    ExtendsTwice(s.names, t.names, u.names);
  }

  lemma {:induction false} NamingGrows(s: Store, x: Names)
    requires Valid(s) && Extends(s.names, x)
    ensures Grows(s, s.(names := x)) && Valid(s.(names := x))
  {
    var t := s.(names := x);
    forall r | r in t.relations ensures RelationStands(t, r) {
      assert RelationStands(s, r);
    }
    forall e, ref | (e, ref) in t.mentions ensures MentionStands(t, e, ref) {
      assert MentionStands(s, e, ref);
    }
  }

  function MentionedBy(s: Store, e: nat, anchor: Option<Ref>, note: Note): Store {
    if anchor.None? then s else Mentioned(s, e, anchor.value, note)
  }

  lemma {:induction false} MentioningGrows(s: Store, e: nat, anchor: Option<Ref>, note: Note)
    requires Valid(s) && (anchor.Some? ==> MentionStands(s, e, anchor.value))
    ensures Valid(MentionedBy(s, e, anchor, note)) && Grows(s, MentionedBy(s, e, anchor, note))
  {
    var t := MentionedBy(s, e, anchor, note);
    forall r | r in t.relations ensures RelationStands(t, r) {
      assert RelationStands(s, r);
    }
    forall a, ref | (a, ref) in t.mentions ensures MentionStands(t, a, ref) {
      assert (a, ref) in s.mentions ==> MentionStands(s, a, ref);
    }
  }

  lemma {:induction false} RelatingGrows(s: Store, r: Relation, note: Note)
    requires Valid(s) && RelationStands(s, r)
    ensures Valid(Related(s, r, note)) && Grows(s, Related(s, r, note))
  {
    var t := Related(s, r, note);
    forall a | a in t.relations ensures RelationStands(t, a) {
      assert RelationStands(s, a);
    }
    forall a, ref | (a, ref) in t.mentions ensures MentionStands(t, a, ref) {
      assert MentionStands(s, a, ref);
    }
  }

  /** A row was there, or is now as given; every other is as it was. */
  ghost predicate Added<K(!new), V>(m: map<K, V>, now: map<K, V>, k: K, v: V) {
    && (forall j :: j in now <==> j in m || j == k) && (forall j | j in m :: now[j] == m[j])
    && (k !in m ==> now[k] == v)
  }

  // ---- the tables ---------------------------------------------------------------------------

  /** The tables as the statements of associations.py change them. */
  class GraphDb {
    var entities: map<nat, Entity>
    var aliases: map<(nat, Norm), string>
    var last: nat
    var mentions: map<(nat, Ref), Note>
    var relations: map<Relation, Note>
    var records: map<Ref, Agent>

    function Now(): Store
      reads this
    {
      Store(Names(entities, aliases, last), mentions, relations, records)
    }

    constructor (s: Store)
      ensures Now() == s
    {
      entities, aliases, last := s.names.entities, s.names.aliases, s.names.last;
      mentions, relations, records := s.mentions, s.relations, s.records;
    }

    /** The entity a normalized name or alias resolves to, in this scope. */
    method ResolveEntity(scope: Scope, n: Norm, exact: bool) returns (r: Option<nat>)
      ensures r == Resolve(Now().names, if exact then [scope] else VisibleScopes(scope), n)
    {
      var scopes := VisibleScopes(scope);
      if exact {
        VisibleScopesAre(scope);
        assert scopes[..1] == [scope];
        scopes := scopes[..1];
      }
      var i := 0;
      while i < |scopes|
        invariant 0 <= i <= |scopes|
        invariant Resolve(Now().names, scopes, n) == Resolve(Now().names, scopes[i..], n)
      {
        var owner := OwnerFrom(Names(entities, aliases, last), scopes[i], n, 0);
        if owner.Some? {
          return owner;
        }
        assert scopes[i..][1..] == scopes[i+1..];
        i := i + 1;
      }
      return None;
    }

    method InsertEntity(scope: Scope, name: Term, note: Note) returns (e: nat)
      modifies this
      ensures Now() == old(Now()).(names := Registered(old(Now()).names, scope, name, note))
      ensures e == old(last) + 1
    {
      last := last + 1;
      e := last;
      entities := entities[e := Entity(scope, name, note)];
    }

    /** The entity for `name`, registered in the exact scope when new. */
    method RegisterEntity(scope: Scope, name: Term, note: Note, exact: bool) returns (e: nat, created: bool)
      modifies this
      ensures Placed(Now().names, e, created) == Register(old(Now()).names, scope, name, note, exact)
      ensures Now() == old(Now()).(names := Now().names)
      ensures ValidNames(old(Now()).names) ==>
        PlacedAs(old(Now()).names, Now().names, e, created, if exact then [scope] else VisibleScopes(scope), scope, name, note)
    {
      if ValidNames(Now().names) {
        RegisterPlaces(Now().names, scope, name, note, exact);
      }
      var existing := ResolveEntity(scope, name.normalized, exact);
      if existing.Some? {
        return existing.value, false;
      }
      e := InsertEntity(scope, name, note);
      created := true;
    }

    /** Attach an alias to an entity of this exact scope. */
    method AddAlias(scope: Scope, e: nat, alias: Term) returns (refused: bool)
      requires e in entities && entities[e].scope == scope
      modifies this
      ensures refused == Declines(old(Now()).names, e, alias.normalized)
      ensures Now() == if refused then old(Now()) else old(Now()).(names := Aliased(old(Now()).names, e, alias))
      ensures refused ==> aliases == old(aliases)
      ensures !refused ==> Added(old(aliases), aliases, (e, alias.normalized), alias.written)
    {
      if alias.normalized == Blank {
        return true;
      }
      var owner := ResolveEntity(scope, alias.normalized, false);
      if owner.Some? && owner.value != e {
        return true;
      }
      if (e, alias.normalized) !in aliases {
        aliases := aliases[(e, alias.normalized) := alias.written];
      }
      return false;
    }

    method TryAlias(scope: Scope, e: nat, alias: Option<Term>, dropped: nat) returns (now: nat)
      requires e in entities && entities[e].scope == scope
      modifies this
      ensures Attached(Now().names, now) == Attach(Attached(old(Now()).names, dropped), e, alias)
      ensures Now() == old(Now()).(names := Now().names)
    {
      if alias.None? {
        return dropped + 1;
      }
      var refused := AddAlias(scope, e, alias.value);
      now := if refused then dropped + 1 else dropped;
    }

    /** Attach the aliases an entity is declared with; how many were not. */
    method AddAliases(scope: Scope, e: nat, aliases: seq<Option<Term>>, maxAliases: nat) returns (dropped: nat)
      requires e in entities && entities[e].scope == scope
      modifies this
      ensures AliasesAttached(old(Now()).names, e, aliases, |aliases|, maxAliases) == Attached(Now().names, dropped)
      ensures Now() == old(Now()).(names := Now().names)
    {
      dropped := 0;
      var i := 0;
      while i < |aliases|
        invariant 0 <= i <= |aliases| && e in entities && entities[e].scope == scope
        invariant AliasesAttached(old(Now()).names, e, aliases, i, maxAliases) == Attached(Now().names, dropped)
        invariant Now() == old(Now()).(names := Now().names)
      {
        dropped := TryAlias(scope, e, if i >= maxAliases then None else aliases[i], dropped);
        i := i + 1;
      }
    }

    method AddMention(e: nat, ref: Ref, note: Note)
      modifies this
      ensures Now() == Mentioned(old(Now()), e, ref, note)
      ensures Added(old(mentions), mentions, (e, ref), note)
    {
      if (e, ref) !in mentions {
        mentions := mentions[(e, ref) := note];
      }
    }

    method AddRelation(r: Relation, note: Note)
      modifies this
      ensures Now() == Related(old(Now()), r, note)
      ensures Added(old(relations), relations, r, note)
    {
      if r !in relations {
        relations := relations[r := note];
      }
    }

    /** DELETE of one entity, and its trigger. */
    method DeleteEntity(e: nat)
      modifies this
      ensures Now() == WithoutEntity(old(Now()), e)
    {
      entities := entities - {e};
      aliases := map k | k in aliases && k.0 != e :: aliases[k];
      mentions := map k | k in mentions && k.0 != e :: mentions[k];
      relations := map r | r in relations && !Touches(r, Thing(e)) :: relations[r];
    }

    method DeleteRecord(ref: Ref)
      modifies this
      ensures Now() == WithoutRecord(old(Now()), ref)
    {
      records := records - {ref};
      mentions := map k | k in mentions && k.1 != ref :: mentions[k];
      relations := map r | r in relations && !Touches(r, Item(ref)) && r.anchor != Some(ref) :: relations[r];
    }
  }
}
