/** Recording a declaration (cpersona/associations.py, `declare`): entities with aliases,
    mentions of the record that evidences them, and relations; malformed items dropped. */
module Declare {
  import opened Common
  import opened Graph

  /** `entities[i]`: its name, and its aliases when they are a list; None where the value is
      not a usable string. */
  datatype DeclaredEntity = DeclaredEntity(name: Option<Term>, aliases: Option<seq<Option<Term>>>)

  /** A relation's end: a record ref, an entity name, or neither. */
  datatype DeclaredEnd = Malformed | RefTo(ref: Ref) | NameOf(name: Term)

  /** `relations[i]`; no verb when the item or its predicate is unusable. */
  datatype DeclaredRelation = DeclaredRelation(verb: Option<Norm>, subject: DeclaredEnd, target: DeclaredEnd)

  datatype Report = Report(entities: seq<(nat, bool)>, mentions: nat, relations: seq<Relation>, dropped: nat)

  datatype Declaring = Declaring(store: Store, report: Report)

  /** What one call says, beside its items. `anchor` is absent, malformed, or a ref. */
  datatype Call = Call(scope: Scope, anchor: Option<Option<Ref>>, note: Note, maxItems: nat, maxAliases: nat)

  function Drop(d: Declaring): Declaring {
    d.(report := d.report.(dropped := d.report.dropped + 1))
  }

  /** Whether an item carries an alias that could be attached. */
  predicate Carries(aliases: seq<Option<Term>>, maxAliases: nat) {
    exists i | 0 <= i < |aliases| && i < maxAliases :: aliases[i].Some?
  }

  datatype NamedItem = NamedItem(names: Names, entity: nat, created: bool, dropped: nat)

  /** An entity placed under its name, with its aliases: with a usable alias, in the exact
      scope. */
  function ItemNamed(x: Names, name: Term, given: Option<seq<Option<Term>>>, c: Call): (r: NamedItem) {
    var aliases := if given.None? then [] else given.value;
    var p := Register(x, c.scope, name, c.note, Carries(aliases, c.maxAliases));
    var a := AliasesAttached(p.names, p.entity, aliases, |aliases|, c.maxAliases);
    NamedItem(a.names, p.entity, p.created, a.dropped + if given.None? then 1 else 0)
  }

  /** The report with an entity added. */
  function WithEntity(r: Report, m: NamedItem, anchored: bool): Report {
    r.(entities := r.entities + [(m.entity, m.created)],
       mentions := r.mentions + if anchored then 1 else 0,
       dropped := r.dropped + m.dropped)
  }

  function EntityDeclared(d: Declaring, item: DeclaredEntity, c: Call, anchor: Option<Ref>): (r: Declaring) {
    if item.name.None? then Drop(d)
    else
      var m := ItemNamed(d.store.names, item.name.value, item.aliases, c);
      Declaring(MentionedBy(d.store.(names := m.names), m.entity, anchor, c.note), WithEntity(d.report, m, anchor.Some?))
  }

  /** An end, its entity registered if new. */
  function EndDeclared(s: Store, end: DeclaredEnd, c: Call): (Store, Option<End>) {
    match end
    case Malformed => (s, None)
    case RefTo(ref) => (s, if IsRecordOf(s, ref, c.scope.agent) then Some(Item(ref)) else None)
    case NameOf(name) =>
      var p := Register(s.names, c.scope, name, c.note, false);
      (s.(names := p.names), Some(Thing(p.entity)))
  }

  function RelationDeclared(d: Declaring, item: DeclaredRelation, c: Call, anchor: Option<Ref>): (r: Declaring) {
    if item.verb.None? then Drop(d)
    else
      var subject := EndDeclared(d.store, item.subject, c);
      if subject.1.None? then Drop(d.(store := subject.0))
      else
        var target := EndDeclared(subject.0, item.target, c);
        if target.1.None? then Drop(d.(store := target.0))
        else
          var key := Relation(c.scope, subject.1.value, item.verb.value, target.1.value, anchor);
          Declaring(Related(target.0, key, c.note), d.report.(relations := d.report.relations + [key]))
  }

  function EntitiesDeclared(d: Declaring, items: seq<DeclaredEntity>, n: nat, c: Call, anchor: Option<Ref>): (r: Declaring)
    requires n <= |items|
  {
    if n == 0 then d
    else
      var r := EntitiesDeclared(d, items, n - 1, c, anchor);
      if n > c.maxItems then Drop(r) else EntityDeclared(r, items[n-1], c, anchor)
  }

  function RelationsDeclared(d: Declaring, items: seq<DeclaredRelation>, n: nat, c: Call, anchor: Option<Ref>): (r: Declaring)
    requires n <= |items|
  {
    if n == 0 then d
    else
      var r := RelationsDeclared(d, items, n - 1, c, anchor);
      if n > c.maxItems then Drop(r) else RelationDeclared(r, items[n-1], c, anchor)
  }

  /** The anchor a call works with: only a record of its agent. */
  function AnchorOf(s: Store, c: Call): (r: Option<Ref>)
    ensures r.Some? ==> IsRecordOf(s, r.value, c.scope.agent)
  {
    if c.anchor.Some? && c.anchor.value.Some? && IsRecordOf(s, c.anchor.value.value, c.scope.agent)
    then c.anchor.value else None
  }

  function Declared(s: Store, entities: seq<DeclaredEntity>, relations: seq<DeclaredRelation>, c: Call): Declaring
  {
    var start := Report([], 0, [], if c.anchor.Some? && AnchorOf(s, c).None? then 1 else 0);
    var d := EntitiesDeclared(Declaring(s, start), entities, |entities|, c, AnchorOf(s, c));
    RelationsDeclared(d, relations, |relations|, c, AnchorOf(s, c))
  }

  // ---- what a declaration keeps ----------------------------------------------------------

  lemma {:induction false} NamingKeeps(x: Names, name: Term, given: Option<seq<Option<Term>>>, c: Call)
    requires ValidNames(x)
    ensures var r := ItemNamed(x, name, given, c);
      && Extends(x, r.names) && Named(r.names, r.entity, name.normalized)
      && r.names.entities[r.entity].scope in VisibleScopes(c.scope)
  {
    var aliases := if given.None? then [] else given.value;
    var p := Register(x, c.scope, name, c.note, Carries(aliases, c.maxAliases));
    RegisterExtends(x, c.scope, name, c.note, Carries(aliases, c.maxAliases));
    AliasesKeep(p.names, p.entity, aliases, |aliases|, c.maxAliases);
    ExtendsTwice(x, p.names, ItemNamed(x, name, given, c).names);
  }

  // ---- what is reported ------------------------------------------------------------------

  /** A reader of a scope sees another of its agent's when each axis is its own or empty. */
  predicate Seen(scope: Scope, reader: Scope) {
    && scope.agent == reader.agent
    && (scope.project == reader.project || scope.project == AnyProject)
    && (scope.channel == reader.channel || scope.channel == AnyChannel)
  }

  /** An entity is the one an item names: it answers to the name, where the call's readers see
      it, is mentioned by the anchor, and has each of the item's aliases within the bound or was
      refused it for good. */
  ghost predicate EntityOf(t: Store, e: nat, item: DeclaredEntity, c: Call, anchor: Option<Ref>) {
    && item.name.Some? && Named(t.names, e, item.name.value.normalized) && Seen(t.names.entities[e].scope, c.scope)
    && (anchor.Some? ==> (e, anchor.value) in t.mentions)
    && (item.aliases.Some? ==> forall i | 0 <= i < |item.aliases.value| && i < c.maxAliases && item.aliases.value[i].Some? ::
          Settled(t.names, e, item.aliases.value[i].value.normalized))
  }

  /** An end is what an item says: the agent's record it refers to, or an entity its readers see
      that answers to the name. */
  predicate EndIs(t: Store, end: End, said: DeclaredEnd, c: Call) {
    match said
    case Malformed => false
    case RefTo(ref) => end == Item(ref) && ref in t.records && t.records[ref] == c.scope.agent
    case NameOf(name) =>
      end.Thing? && Named(t.names, end.entity, name.normalized) && Seen(t.names.entities[end.entity].scope, c.scope)
  }

  /** A relation is what an item says, filed in the call's scope and evidenced by its anchor. */
  predicate RelationOf(t: Store, r: Relation, item: DeclaredRelation, c: Call, anchor: Option<Ref>) {
    && r in t.relations && r.scope == c.scope && r.anchor == anchor && item.verb == Some(r.verb)
    && EndIs(t, r.subject, item.subject, c) && EndIs(t, r.target, item.target, c)
  }

  /** An end that can be had: a name, or a ref to one of the agent's records. */
  predicate Reachable(records: map<Ref, Agent>, said: DeclaredEnd, c: Call) {
    said.NameOf? || (said.RefTo? && said.ref in records && records[said.ref] == c.scope.agent)
  }

  /** An item is reported exactly when it is within the bound and says all it must. */
  predicate Accepted(records: map<Ref, Agent>, item: DeclaredRelation, i: nat, c: Call) {
    i < c.maxItems && item.verb.Some? && Reachable(records, item.subject, c) && Reachable(records, item.target, c)
  }

  predicate AcceptedEntity(item: DeclaredEntity, i: nat, c: Call) {
    i < c.maxItems && item.name.Some?
  }

  /** The accepted ones of the first `n` items, in order. */
  function Entities(items: seq<DeclaredEntity>, n: nat, c: Call): (q: seq<nat>)
    requires n <= |items|
    ensures forall k | 0 <= k < |q| :: q[k] < n
  {
    if n == 0 then []
    else if AcceptedEntity(items[n-1], n - 1, c) then Entities(items, n - 1, c) + [n - 1] else Entities(items, n - 1, c)
  }

  function Relations(records: map<Ref, Agent>, items: seq<DeclaredRelation>, n: nat, c: Call): (q: seq<nat>)
    requires n <= |items|
    ensures forall k | 0 <= k < |q| :: q[k] < n
  {
    if n == 0 then []
    else if Accepted(records, items[n-1], n - 1, c) then Relations(records, items, n - 1, c) + [n - 1]
    else Relations(records, items, n - 1, c)
  }

  lemma {:induction false} EntitiesAre(items: seq<DeclaredEntity>, n: nat, c: Call)
    requires n <= |items|
    ensures forall i: nat :: i in Entities(items, n, c) <==> i < n && AcceptedEntity(items[i], i, c)
    ensures forall j, k | 0 <= j < k < |Entities(items, n, c)| :: Entities(items, n, c)[j] < Entities(items, n, c)[k]
  {
    if n > 0 {
      EntitiesAre(items, n - 1, c);
    }
  }

  lemma {:induction false} RelationsAre(records: map<Ref, Agent>, items: seq<DeclaredRelation>, n: nat, c: Call)
    requires n <= |items|
    ensures forall i: nat :: i in Relations(records, items, n, c) <==> i < n && Accepted(records, items[i], i, c)
    ensures forall j, k | 0 <= j < k < |Relations(records, items, n, c)| ::
      Relations(records, items, n, c)[j] < Relations(records, items, n, c)[k]
  {
    if n > 0 {
      RelationsAre(records, items, n - 1, c);
    }
  }

  /** The report names the accepted items' entities in order, each created or found. */
  ghost predicate EntitiesReported(s: Store, d: Declaring, items: seq<DeclaredEntity>, n: nat, c: Call, anchor: Option<Ref>)
    requires n <= |items|
  {
    && |d.report.entities| == |Entities(items, n, c)|
    && (forall k | 0 <= k < |d.report.entities| ::
          EntityOf(d.store, d.report.entities[k].0, items[Entities(items, n, c)[k]], c, anchor)
          && (d.report.entities[k].1 ==> d.report.entities[k].0 !in s.names.entities))
    && d.report.mentions == (if anchor.Some? then |d.report.entities| else 0)
  }

  /** And the accepted items' relations in order. */
  ghost predicate RelationsReported(d: Declaring, items: seq<DeclaredRelation>, n: nat, c: Call, anchor: Option<Ref>)
    requires n <= |items|
  {
    && |d.report.relations| == |Relations(d.store.records, items, n, c)|
    && (forall k | 0 <= k < |d.report.relations| ::
          RelationOf(d.store, d.report.relations[k], items[Relations(d.store.records, items, n, c)[k]], c, anchor))
  }

  lemma {:induction false} EntityStays(s: Store, t: Store, e: nat, item: DeclaredEntity, c: Call, anchor: Option<Ref>)
    requires Grows(s, t) && EntityOf(s, e, item, c, anchor)
    ensures EntityOf(t, e, item, c, anchor)
  {
    if item.aliases.Some? {
      forall i | 0 <= i < |item.aliases.value| && i < c.maxAliases && item.aliases.value[i].Some?
        ensures Settled(t.names, e, item.aliases.value[i].value.normalized)
      {
        SettledStays(s.names, t.names, e, item.aliases.value[i].value.normalized);
      }
    }
  }

  lemma {:induction false} EntitiesStay(s: Store, d: Declaring, t: Store, items: seq<DeclaredEntity>, n: nat, c: Call, anchor: Option<Ref>)
    requires n <= |items| && Grows(d.store, t) && EntitiesReported(s, d, items, n, c, anchor)
    ensures EntitiesReported(s, d.(store := t), items, n, c, anchor)
  {
    forall k | 0 <= k < |d.report.entities|
      ensures EntityOf(t, d.report.entities[k].0, items[Entities(items, n, c)[k]], c, anchor)
    {
      EntityStays(d.store, t, d.report.entities[k].0, items[Entities(items, n, c)[k]], c, anchor);
    }
  }

  lemma {:induction false} RelationsStay(d: Declaring, t: Store, items: seq<DeclaredRelation>, n: nat, c: Call, anchor: Option<Ref>)
    requires n <= |items| && Grows(d.store, t) && RelationsReported(d, items, n, c, anchor)
    ensures RelationsReported(d.(store := t), items, n, c, anchor)
  {
  }

  // ---- one entity ---------------------------------------------------------------------------

  lemma {:induction false} NamedAsSaid(x: Names, name: Term, given: Option<seq<Option<Term>>>, c: Call)
    requires ValidNames(x)
    ensures var r := ItemNamed(x, name, given, c);
      && (r.created ==> r.entity !in x.entities)
      && (given.Some? ==> forall i | 0 <= i < |given.value| && i < c.maxAliases && given.value[i].Some? ::
            Settled(r.names, r.entity, given.value[i].value.normalized))
  {
    var aliases := if given.None? then [] else given.value;
    var p := Register(x, c.scope, name, c.note, Carries(aliases, c.maxAliases));
    RegisterExtends(x, c.scope, name, c.note, Carries(aliases, c.maxAliases));
    forall i | 0 <= i < |aliases| && i < c.maxAliases && aliases[i].Some?
      ensures Settled(ItemNamed(x, name, given, c).names, p.entity, aliases[i].value.normalized)
    {
      AliasesSettled(p.names, p.entity, aliases, |aliases|, c.maxAliases, i);
    }
  }

  /** What declaring one entity does: it is there as the item says, and everything else is. */
  lemma {:induction false} EntityIsDeclared(d: Declaring, item: DeclaredEntity, c: Call, anchor: Option<Ref>)
    requires Valid(d.store) && item.name.Some?
    requires anchor.Some? ==> IsRecordOf(d.store, anchor.value, c.scope.agent)
    ensures var r := EntityDeclared(d, item, c, anchor);
      && Valid(r.store) && Grows(d.store, r.store)
      && |r.report.entities| == |d.report.entities| + 1 && r.report.entities[..|d.report.entities|] == d.report.entities
      && var e := r.report.entities[|d.report.entities|];
        EntityOf(r.store, e.0, item, c, anchor) && (e.1 ==> e.0 !in d.store.names.entities)
  {
    var r := EntityDeclared(d, item, c, anchor);
    var m := ItemNamed(d.store.names, item.name.value, item.aliases, c);
    var named := d.store.(names := m.names);
    NamingKeeps(d.store.names, item.name.value, item.aliases, c);
    NamedAsSaid(d.store.names, item.name.value, item.aliases, c);
    NamingGrows(d.store, m.names);
    VisibleScopesAre(c.scope);
    MentioningGrows(named, m.entity, anchor, c.note);
    GrowsTwice(d.store, named, r.store);
  }

  lemma {:induction false} OneMoreEntity(s: Store, d: Declaring, r: Declaring, items: seq<DeclaredEntity>, i: nat, n: nat, c: Call, anchor: Option<Ref>)
    requires n == i + 1 && n <= |items| && AcceptedEntity(items[i], i, c)
    requires Grows(s, d.store) && Grows(d.store, r.store) && EntitiesReported(s, d, items, i, c, anchor)
    requires |r.report.entities| == |d.report.entities| + 1 && r.report.entities[..|d.report.entities|] == d.report.entities
    requires r.report.mentions == d.report.mentions + if anchor.Some? then 1 else 0
    requires var e := r.report.entities[|d.report.entities|];
      EntityOf(r.store, e.0, items[i], c, anchor) && (e.1 ==> e.0 !in d.store.names.entities)
    ensures EntitiesReported(s, r, items, n, c, anchor)
  {
    EntitiesStay(s, d, r.store, items, i, c, anchor);
    forall k | 0 <= k < |r.report.entities|
      ensures EntityOf(r.store, r.report.entities[k].0, items[Entities(items, n, c)[k]], c, anchor)
      ensures r.report.entities[k].1 ==> r.report.entities[k].0 !in s.names.entities
    {
      if k < |d.report.entities| {
        assert r.report.entities[k] == d.report.entities[k];
      }
    }
  }

  lemma {:induction false} NextEntity(s: Store, d: Declaring, r: Declaring, items: seq<DeclaredEntity>, i: nat, n: nat, c: Call, anchor: Option<Ref>)
    requires n == i + 1 && n <= |items| && r == if i < c.maxItems then EntityDeclared(d, items[i], c, anchor) else Drop(d)
    requires Valid(d.store) && Grows(s, d.store) && EntitiesReported(s, d, items, i, c, anchor)
    requires anchor.Some? ==> IsRecordOf(s, anchor.value, c.scope.agent)
    ensures Valid(r.store) && Grows(s, r.store) && r.report.relations == d.report.relations && EntitiesReported(s, r, items, n, c, anchor)
  {
    if AcceptedEntity(items[i], i, c) {
      EntityIsDeclared(d, items[i], c, anchor);
      GrowsTwice(s, d.store, r.store);
      OneMoreEntity(s, d, r, items, i, n, c, anchor);
    }
  }

  lemma {:induction false} EntitiesAreReported(s: Store, d: Declaring, items: seq<DeclaredEntity>, n: nat, c: Call, anchor: Option<Ref>)
    requires n <= |items| && Valid(s) && d.store == s && d.report.entities == [] && d.report.mentions == 0
    requires anchor.Some? ==> IsRecordOf(s, anchor.value, c.scope.agent)
    ensures var r := EntitiesDeclared(d, items, n, c, anchor);
      Valid(r.store) && Grows(s, r.store) && r.report.relations == d.report.relations && EntitiesReported(s, r, items, n, c, anchor)
  {
    if n > 0 {
      var i := n - 1;
      EntitiesAreReported(s, d, items, i, c, anchor);
      var before, r := EntitiesDeclared(d, items, i, c, anchor), EntitiesDeclared(d, items, n, c, anchor);
      NextEntity(s, before, r, items, i, n, c, anchor);
    }
  }

  // ---- one relation ---------------------------------------------------------------------------

  lemma {:induction false} EndKeeps(s: Store, end: DeclaredEnd, c: Call)
    requires Valid(s)
    ensures var r := EndDeclared(s, end, c);
      && Valid(r.0) && Grows(s, r.0)
      && (r.1.Some? <==> Reachable(s.records, end, c))
      && (r.1.Some? ==> EndStands(r.0, r.1.value, c.scope.agent) && EndIs(r.0, r.1.value, end, c))
  {
    if end.NameOf? {
      RegisterExtends(s.names, c.scope, end.name, c.note, false);
      VisibleScopesAre(c.scope);
      NamingGrows(s, Register(s.names, c.scope, end.name, c.note, false).names);
    }
  }

  lemma {:induction false} EndStays(s: Store, t: Store, end: End, said: DeclaredEnd, c: Call)
    requires Grows(s, t)
    ensures EndIs(s, end, said, c) ==> EndIs(t, end, said, c)
    ensures EndStands(s, end, c.scope.agent) ==> EndStands(t, end, c.scope.agent)
  {
  }

  /** What declaring one relation does: reported as the item says, or counted as dropped. */
  ghost predicate RelationOutcome(d: Declaring, r: Declaring, item: DeclaredRelation, c: Call, anchor: Option<Ref>) {
    && Valid(r.store) && Grows(d.store, r.store) && r.report.entities == d.report.entities && r.report.mentions == d.report.mentions
    && if item.verb.Some? && Reachable(d.store.records, item.subject, c) && Reachable(d.store.records, item.target, c) then
         && r.report.dropped == d.report.dropped
         && |r.report.relations| == |d.report.relations| + 1 && r.report.relations[..|d.report.relations|] == d.report.relations
         && RelationOf(r.store, r.report.relations[|d.report.relations|], item, c, anchor)
       else r.report.dropped == d.report.dropped + 1 && r.report.relations == d.report.relations
  }

  lemma {:induction false} RelationIsDeclared(d: Declaring, item: DeclaredRelation, c: Call, anchor: Option<Ref>)
    requires Valid(d.store)
    requires anchor.Some? ==> IsRecordOf(d.store, anchor.value, c.scope.agent)
    ensures RelationOutcome(d, RelationDeclared(d, item, c, anchor), item, c, anchor)
  {
    if item.verb.Some? {
      var subject := EndDeclared(d.store, item.subject, c);
      EndKeeps(d.store, item.subject, c);
      if subject.1.Some? {
        TargetIsDeclared(d, subject.0, subject.1.value, item, c, anchor);
      }
    }
  }

  lemma {:induction false} TargetIsDeclared(d: Declaring, s: Store, subject: End, item: DeclaredRelation, c: Call, anchor: Option<Ref>)
    requires Valid(s) && Grows(d.store, s) && item.verb.Some? && Reachable(d.store.records, item.subject, c)
    requires EndIs(s, subject, item.subject, c) && EndStands(s, subject, c.scope.agent)
    requires anchor.Some? ==> IsRecordOf(d.store, anchor.value, c.scope.agent)
    ensures var target := EndDeclared(s, item.target, c);
      RelationOutcome(d,
        if target.1.None? then Drop(d.(store := target.0))
        else
          var key := Relation(c.scope, subject, item.verb.value, target.1.value, anchor);
          Declaring(Related(target.0, key, c.note), d.report.(relations := d.report.relations + [key])),
        item, c, anchor)
  {
    var target := EndDeclared(s, item.target, c);
    EndKeeps(s, item.target, c);
    GrowsTwice(d.store, s, target.0);
    EndStays(s, target.0, subject, item.subject, c);
    if target.1.Some? {
      RelatingKeeps(d.store, target.0, item, subject, target.1.value, c, anchor);
    }
  }

  lemma {:induction false} RelatingKeeps(s: Store, t: Store, item: DeclaredRelation, subject: End, target: End, c: Call, anchor: Option<Ref>)
    requires Valid(t) && Grows(s, t) && item.verb.Some?
    requires EndIs(t, subject, item.subject, c) && EndStands(t, subject, c.scope.agent)
    requires EndIs(t, target, item.target, c) && EndStands(t, target, c.scope.agent)
    requires anchor.Some? ==> IsRecordOf(s, anchor.value, c.scope.agent)
    ensures var key := Relation(c.scope, subject, item.verb.value, target, anchor);
      var u := Related(t, key, c.note);
      Valid(u) && Grows(s, u) && RelationOf(u, key, item, c, anchor)
  {
    var key := Relation(c.scope, subject, item.verb.value, target, anchor);
    RelatingGrows(t, key, c.note);
    GrowsTwice(s, t, Related(t, key, c.note));
  }

  lemma {:induction false} OneMoreRelation(d: Declaring, r: Declaring, items: seq<DeclaredRelation>, i: nat, n: nat, c: Call, anchor: Option<Ref>)
    requires n == i + 1 && n <= |items| && Accepted(d.store.records, items[i], i, c)
    requires Grows(d.store, r.store) && RelationsReported(d, items, i, c, anchor)
    requires |r.report.relations| == |d.report.relations| + 1 && r.report.relations[..|d.report.relations|] == d.report.relations
    requires RelationOf(r.store, r.report.relations[|d.report.relations|], items[i], c, anchor)
    ensures RelationsReported(r, items, n, c, anchor)
  {
    RelationsStay(d, r.store, items, i, c, anchor);
    forall k | 0 <= k < |r.report.relations|
      ensures RelationOf(r.store, r.report.relations[k], items[Relations(r.store.records, items, n, c)[k]], c, anchor)
    {
      if k < |d.report.relations| {
        assert r.report.relations[k] == d.report.relations[k];
      }
    }
  }

  lemma {:induction false} NextRelation(s: Store, d: Declaring, r: Declaring, items: seq<DeclaredRelation>, i: nat, n: nat, c: Call, anchor: Option<Ref>)
    requires n == i + 1 && n <= |items| && r == if i < c.maxItems then RelationDeclared(d, items[i], c, anchor) else Drop(d)
    requires Valid(d.store) && Grows(s, d.store) && RelationsReported(d, items, i, c, anchor)
    requires anchor.Some? ==> IsRecordOf(s, anchor.value, c.scope.agent)
    ensures Valid(r.store) && Grows(s, r.store) && RelationsReported(r, items, n, c, anchor)
    ensures r.report.entities == d.report.entities && r.report.mentions == d.report.mentions
    ensures r.report.dropped - d.report.dropped == 1 - (|r.report.relations| - |d.report.relations|)
  {
    if i < c.maxItems {
      RelationIsDeclared(d, items[i], c, anchor);
      RelationCounted(s, d, r, items, i, n, c, anchor);
    }
  }

  lemma {:induction false} RelationCounted(s: Store, d: Declaring, r: Declaring, items: seq<DeclaredRelation>, i: nat, n: nat, c: Call, anchor: Option<Ref>)
    requires n == i + 1 && n <= |items| && i < c.maxItems && RelationOutcome(d, r, items[i], c, anchor)
    requires Grows(s, d.store) && RelationsReported(d, items, i, c, anchor)
    ensures Grows(s, r.store) && RelationsReported(r, items, n, c, anchor)
  {
    GrowsTwice(s, d.store, r.store);
    if Accepted(d.store.records, items[i], i, c) {
      OneMoreRelation(d, r, items, i, n, c, anchor);
    } else {
      RelationsStay(d, r.store, items, i, c, anchor);
    }
  }

  lemma {:induction false} RelationsAreReported(d: Declaring, items: seq<DeclaredRelation>, n: nat, c: Call, anchor: Option<Ref>)
    requires n <= |items| && Valid(d.store) && d.report.relations == []
    requires anchor.Some? ==> IsRecordOf(d.store, anchor.value, c.scope.agent)
    ensures var r := RelationsDeclared(d, items, n, c, anchor);
      && Valid(r.store) && Grows(d.store, r.store) && RelationsReported(r, items, n, c, anchor)
      && r.report.entities == d.report.entities && r.report.mentions == d.report.mentions
      && r.report.dropped == d.report.dropped + n - |r.report.relations|
  {
    if n > 0 {
      var i := n - 1;
      RelationsAreReported(d, items, i, c, anchor);
      NextRelation(d.store, RelationsDeclared(d, items, i, c, anchor), RelationsDeclared(d, items, n, c, anchor), items, i, n, c, anchor);
    }
  }

  // ---- who said it and when -------------------------------------------------------------------

  /** What is new says who declared it, and when. */
  ghost predicate NewNoted(s: Store, t: Store, note: Note) {
    && (forall e | e in t.names.entities && e !in s.names.entities :: t.names.entities[e].note == note)
    && (forall k | k in t.mentions && k !in s.mentions :: t.mentions[k] == note)
    && (forall r | r in t.relations && r !in s.relations :: t.relations[r] == note)
  }

  lemma {:induction false} NotedTwice(s: Store, t: Store, u: Store, note: Note)
    requires Grows(t, u) && NewNoted(s, t, note) && NewNoted(t, u, note)
    ensures NewNoted(s, u, note)
  {
  }

  lemma {:induction false} PlacingNotes(x: Names, scope: Scope, name: Term, note: Note, exact: bool)
    requires ValidNames(x)
    ensures var r := Register(x, scope, name, note, exact);
      forall e | e in r.names.entities && e !in x.entities :: r.names.entities[e].note == note
  {
    RegisterPlaces(x, scope, name, note, exact);
  }

  lemma {:induction false} EntityIsNoted(d: Declaring, item: DeclaredEntity, c: Call, anchor: Option<Ref>)
    requires Valid(d.store)
    ensures NewNoted(d.store, EntityDeclared(d, item, c, anchor).store, c.note)
  {
    if item.name.Some? {
      var aliases := if item.aliases.None? then [] else item.aliases.value;
      PlacingNotes(d.store.names, c.scope, item.name.value, c.note, Carries(aliases, c.maxAliases));
    }
  }

  lemma {:induction false} EndIsNoted(s: Store, end: DeclaredEnd, c: Call)
    requires Valid(s)
    ensures NewNoted(s, EndDeclared(s, end, c).0, c.note)
  {
    if end.NameOf? {
      PlacingNotes(s.names, c.scope, end.name, c.note, false);
    }
  }

  lemma {:induction false} RelationIsNoted(d: Declaring, item: DeclaredRelation, c: Call, anchor: Option<Ref>)
    requires Valid(d.store)
    ensures NewNoted(d.store, RelationDeclared(d, item, c, anchor).store, c.note)
  {
    if item.verb.Some? {
      var subject := EndDeclared(d.store, item.subject, c);
      EndKeeps(d.store, item.subject, c);
      EndIsNoted(d.store, item.subject, c);
      if subject.1.Some? {
        var target := EndDeclared(subject.0, item.target, c);
        EndKeeps(subject.0, item.target, c);
        EndIsNoted(subject.0, item.target, c);
        NotedTwice(d.store, subject.0, target.0, c.note);
      }
    }
  }

  lemma {:induction false} EntitiesAreNoted(d: Declaring, items: seq<DeclaredEntity>, n: nat, c: Call, anchor: Option<Ref>)
    requires n <= |items| && Valid(d.store) && d.report.entities == [] && d.report.mentions == 0
    requires anchor.Some? ==> IsRecordOf(d.store, anchor.value, c.scope.agent)
    ensures NewNoted(d.store, EntitiesDeclared(d, items, n, c, anchor).store, c.note)
  {
    if n > 0 {
      var before, r := EntitiesDeclared(d, items, n - 1, c, anchor), EntitiesDeclared(d, items, n, c, anchor);
      EntitiesAreNoted(d, items, n - 1, c, anchor);
      EntitiesAreReported(d.store, d, items, n - 1, c, anchor);
      EntityIsNoted(before, items[n-1], c, anchor);
      EntityGrows(before, items[n-1], c, anchor);
      NotedTwice(d.store, before.store, r.store, c.note);
    }
  }

  lemma {:induction false} EntityGrows(d: Declaring, item: DeclaredEntity, c: Call, anchor: Option<Ref>)
    requires Valid(d.store) && (anchor.Some? ==> IsRecordOf(d.store, anchor.value, c.scope.agent))
    ensures Grows(d.store, EntityDeclared(d, item, c, anchor).store)
  {
    if item.name.Some? {
      EntityIsDeclared(d, item, c, anchor);
    }
  }

  lemma {:induction false} RelationsAreNoted(d: Declaring, items: seq<DeclaredRelation>, n: nat, c: Call, anchor: Option<Ref>)
    requires n <= |items| && Valid(d.store) && d.report.relations == []
    requires anchor.Some? ==> IsRecordOf(d.store, anchor.value, c.scope.agent)
    ensures NewNoted(d.store, RelationsDeclared(d, items, n, c, anchor).store, c.note)
  {
    if n > 0 {
      var before, r := RelationsDeclared(d, items, n - 1, c, anchor), RelationsDeclared(d, items, n, c, anchor);
      RelationsAreNoted(d, items, n - 1, c, anchor);
      RelationsAreReported(d, items, n - 1, c, anchor);
      RelationIsNoted(before, items[n-1], c, anchor);
      RelationIsDeclared(before, items[n-1], c, anchor);
      NotedTwice(d.store, before.store, r.store, c.note);
    }
  }

  // ---- a whole declaration ---------------------------------------------------------------------

  /** The anchor a call works with is the one it gives when that is a record of its agent. */
  predicate Anchors(s: Store, c: Call, anchor: Option<Ref>) {
    && (anchor.Some? ==> c.anchor == Some(anchor))
    && anchor.Some? == (c.anchor.Some? && c.anchor.value.Some? && c.anchor.value.value in s.records
                        && s.records[c.anchor.value.value] == c.scope.agent)
  }

  /** The report is of the accepted items and nothing else, in order: each entity as its item
      names it, each relation with its item's own ends, subject first, and verb. */
  ghost predicate Reported(s: Store, d: Declaring, entities: seq<DeclaredEntity>, relations: seq<DeclaredRelation>, c: Call, anchor: Option<Ref>) {
    && Anchors(s, c, anchor)
    && EntitiesReported(s, d, entities, |entities|, c, anchor) && RelationsReported(d, relations, |relations|, c, anchor)
    && NewNoted(s, d.store, c.note)
  }

  /** A declaration never takes anything out of the store, keeps one owner a scope, names only
      records of its agent, and reports what its items say. */
  lemma {:induction false} DeclaredKeeps(s: Store, entities: seq<DeclaredEntity>, relations: seq<DeclaredRelation>, c: Call)
    requires Valid(s)
    ensures var d := Declared(s, entities, relations, c);
      Valid(d.store) && Grows(s, d.store) && Reported(s, d, entities, relations, c, AnchorOf(s, c))
  {
    var anchor := AnchorOf(s, c);
    var start := Declaring(s, Report([], 0, [], if c.anchor.Some? && anchor.None? then 1 else 0));
    EntitiesAreReported(s, start, entities, |entities|, c, anchor);
    var d := EntitiesDeclared(start, entities, |entities|, c, anchor);
    RelationsAreReported(d, relations, |relations|, c, anchor);
    var r := RelationsDeclared(d, relations, |relations|, c, anchor);
    GrowsTwice(s, d.store, r.store);
    EntitiesStay(s, d, r.store, entities, |entities|, c, anchor);
    EntitiesAreNoted(start, entities, |entities|, c, anchor);
    RelationsAreNoted(d, relations, |relations|, c, anchor);
    NotedTwice(s, d.store, r.store, c.note);
  }

  // ---- the code -------------------------------------------------------------------------------

  /** Where an item's name is looked for: with an alias that can be attached, in the call's
      exact scope alone. */
  function ScopesFor(given: Option<seq<Option<Term>>>, c: Call): seq<Scope> {
    if given.Some? && exists i | 0 <= i < |given.value| && i < c.maxAliases :: given.value[i].Some? then [c.scope]
    else VisibleScopes(c.scope)
  }

  method NameItem(db: GraphDb, name: Term, given: Option<seq<Option<Term>>>, c: Call)
      returns (e: nat, created: bool, dropped: nat, ghost placed: Names)
    requires ValidNames(db.Now().names)
    modifies db
    ensures NamedItem(db.Now().names, e, created, dropped) == ItemNamed(old(db.Now()).names, name, given, c)
    ensures db.Now() == old(db.Now()).(names := db.Now().names)
    ensures PlacedAs(old(db.Now()).names, placed, e, created, ScopesFor(given, c), c.scope, name, c.note)
    ensures db.Now().names.entities == placed.entities
  {
    var aliases := if given.None? then [] else given.value;
    var exact := exists i | 0 <= i < |aliases| && i < c.maxAliases :: aliases[i].Some?;
    e, created := PlaceItem(db, name, exact, c, ScopesFor(given, c));
    placed := db.Now().names;
    dropped := AttachOrDrop(db, e, aliases, exact, c);
    dropped := dropped + if given.None? then 1 else 0;
  }

  method PlaceItem(db: GraphDb, name: Term, exact: bool, c: Call, ghost scopes: seq<Scope>) returns (e: nat, created: bool)
    requires ValidNames(db.Now().names) && scopes == if exact then [c.scope] else VisibleScopes(c.scope)
    modifies db
    ensures Placed(db.Now().names, e, created) == Register(old(db.Now()).names, c.scope, name, c.note, exact)
    ensures db.Now() == old(db.Now()).(names := db.Now().names)
    ensures PlacedAs(old(db.Now()).names, db.Now().names, e, created, scopes, c.scope, name, c.note)
    ensures e in db.entities && (exact ==> db.entities[e].scope == c.scope)
  {
    RegisterExtends(db.Now().names, c.scope, name, c.note, exact);
    e, created := db.RegisterEntity(c.scope, name, c.note, exact);
  }

  method AttachOrDrop(db: GraphDb, e: nat, aliases: seq<Option<Term>>, carries: bool, c: Call) returns (dropped: nat)
    requires carries == Carries(aliases, c.maxAliases) && e in db.entities && (carries ==> db.entities[e].scope == c.scope)
    modifies db
    ensures AliasesAttached(old(db.Now()).names, e, aliases, |aliases|, c.maxAliases) == Attached(db.Now().names, dropped)
    ensures db.Now() == old(db.Now()).(names := db.Now().names)
  {
    if carries {
      dropped := db.AddAliases(c.scope, e, aliases, c.maxAliases);
    } else {
      NothingCarried(db.Now().names, e, aliases, |aliases|, c.maxAliases);
      dropped := |aliases|;
    }
  }

  method DeclareEntity(db: GraphDb, item: DeclaredEntity, c: Call, anchor: Option<Ref>, report: Report) returns (now: Report)
    requires ValidNames(db.Now().names)
    modifies db
    ensures Declaring(db.Now(), now) == EntityDeclared(Declaring(old(db.Now()), report), item, c, anchor)
  {
    if item.name.None? {
      return report.(dropped := report.dropped + 1);
    }
    var e, created, dropped, _ := NameItem(db, item.name.value, item.aliases, c);
    if anchor.Some? {
      db.AddMention(e, anchor.value, c.note);
    }
    now := Report(report.entities + [(e, created)], report.mentions + if anchor.Some? then 1 else 0,
                  report.relations, report.dropped + dropped);
  }

  /** With no usable alias every entry is dropped. */
  lemma {:induction false} NothingCarried(x: Names, e: nat, aliases: seq<Option<Term>>, n: nat, maxAliases: nat)
    requires n <= |aliases| && e in x.entities && !Carries(aliases, maxAliases)
    ensures AliasesAttached(x, e, aliases, n, maxAliases) == Attached(x, n)
  {
    if n > 0 {
      NothingCarried(x, e, aliases, n - 1, maxAliases);
      assert n > maxAliases || aliases[n-1].None?;
    }
  }

  method DeclareEnd(db: GraphDb, end: DeclaredEnd, c: Call) returns (r: Option<End>)
    modifies db
    ensures (db.Now(), r) == EndDeclared(old(db.Now()), end, c)
    ensures end.NameOf? && ValidNames(old(db.Now()).names) ==> r.Some? && r.value.Thing? && exists created ::
      PlacedAs(old(db.Now()).names, db.Now().names, r.value.entity, created, VisibleScopes(c.scope), c.scope, end.name, c.note)
  {
    match end
    case Malformed => r := None;
    case RefTo(ref) =>
      r := if ref in db.records && db.records[ref] == c.scope.agent then Some(Item(ref)) else None;
    case NameOf(name) =>
      var e, _ := db.RegisterEntity(c.scope, name, c.note, false);
      r := Some(Thing(e));
  }

  method DeclareRelation(db: GraphDb, item: DeclaredRelation, c: Call, anchor: Option<Ref>, report: Report) returns (now: Report)
    modifies db
    ensures Declaring(db.Now(), now) == RelationDeclared(Declaring(old(db.Now()), report), item, c, anchor)
  {
    now := report.(dropped := report.dropped + 1);
    if item.verb.None? {
      return;
    }
    var subject := DeclareEnd(db, item.subject, c);
    if subject.None? {
      return;
    }
    var target := DeclareEnd(db, item.target, c);
    if target.None? {
      return;
    }
    var key := Relation(c.scope, subject.value, item.verb.value, target.value, anchor);
    db.AddRelation(key, c.note);
    now := report.(relations := report.relations + [key]);
  }

  /** Record a declaration in one transaction. */
  method DeclareAll(db: GraphDb, entities: seq<DeclaredEntity>, relations: seq<DeclaredRelation>, c: Call)
      returns (report: Report)
    requires Valid(db.Now())
    modifies db
    ensures Declaring(db.Now(), report) == Declared(old(db.Now()), entities, relations, c)
    ensures Valid(db.Now()) && Grows(old(db.Now()), db.Now())
    ensures exists anchor :: Reported(old(db.Now()), Declaring(db.Now(), report), entities, relations, c, anchor)
  {
    ghost var s := db.Now();
    DeclaredKeeps(s, entities, relations, c);
    var anchor := AnchorOf(db.Now(), c);
    report := Report([], 0, [], if c.anchor.Some? && anchor.None? then 1 else 0);
    ghost var start := Declaring(s, report);
    var i := 0;
    while i < |entities|
      invariant 0 <= i <= |entities|
      invariant Declaring(db.Now(), report) == EntitiesDeclared(start, entities, i, c, anchor)
    {
      EntitiesAreReported(s, start, entities, i, c, anchor);
      if i >= c.maxItems {
        report := report.(dropped := report.dropped + 1);
      } else {
        report := DeclareEntity(db, entities[i], c, anchor, report);
      }
      i := i + 1;
    }
    ghost var d := Declaring(db.Now(), report);
    i := 0;
    while i < |relations|
      invariant 0 <= i <= |relations|
      invariant Declaring(db.Now(), report) == RelationsDeclared(d, relations, i, c, anchor)
    {
      if i >= c.maxItems {
        report := report.(dropped := report.dropped + 1);
      } else {
        report := DeclareRelation(db, relations[i], c, anchor, report);
      }
      i := i + 1;
    }
  }
}
