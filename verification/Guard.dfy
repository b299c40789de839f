/** The capability guard (cpersona/acl.py): what a client's grants reach, what a call
    demands, and the step-by-step decision in front of every handler. */
module Guard {
  import opened Common

  /** A name where an agent is expected: the empty string, `*`, `@me`, or an agent. */
  datatype Pattern = Nobody | Every | Me | Named(id: nat)

  const NONE: nat := 0
  const READ: nat := 1
  const WRITE: nat := 2

  type Level = x: nat | x <= 2

  /** A client's grants; the loader refuses an empty key. */
  type Grants = map<Pattern, Level>

  // ---- what grants reach --------------------------------------------------------------------

  /** `min(grants.values())`, over the three levels there are. */
  function Weakest(grants: Grants): (l: Level)
    requires grants != map[]
  {
    if NONE in grants.Values then NONE else if READ in grants.Values then READ else WRITE
  }

  /** An exact grant beats the wildcard both ways; a sweep reaches only as far as every row. */
  function Effective(grants: Grants, p: Pattern): (l: Level) {
    if p.Every? then
      if Every !in grants then NONE else Weakest(grants)
    else if p in grants then grants[p]
    else if Every in grants then grants[Every]
    else NONE
  }

  lemma {:induction false} WeakestIsLeast(grants: Grants)
    requires grants != map[]
    ensures Weakest(grants) in grants.Values && forall p | p in grants :: Weakest(grants) <= grants[p]
  {
    assert forall p | p in grants :: grants[p] in grants.Values;
    var p :| p in grants;
    assert grants[p] in grants.Values;
  }

  lemma {:induction false} UnnamedExists(grants: Grants) returns (p: Pattern)
    ensures p.Named? && p !in grants
  {
    var n := PastAll(grants.Keys);
    p := Named(n);
  }

  lemma {:induction false} PastAll(s: set<Pattern>) returns (n: nat)
    ensures forall p | p in s && p.Named? :: p.id < n
  {
    if s == {} {
      n := 0;
    } else {
      var p :| p in s;
      var m := PastAll(s - {p});
      n := if p.Named? && m <= p.id then p.id + 1 else m;
    }
  }

  /** An all-agents demand is granted exactly when every agent there could be is, the named
      exceptions included. */
  lemma {:induction false} SweepReachesEveryAgent(grants: Grants, l: Level)
    requires l > NONE
    ensures Effective(grants, Every) >= l <==> forall p | p != Every :: Effective(grants, p) >= l
  {
    var other := UnnamedExists(grants);
    if Every in grants {
      WeakestIsLeast(grants);
      if forall p | p != Every :: Effective(grants, p) >= l {
        var q :| q in grants && grants[q] == Weakest(grants);
        assert Effective(grants, other) == grants[Every];
        assert q != Every ==> Effective(grants, q) == grants[q];
      }
    } else {
      assert Effective(grants, other) == NONE;
    }
  }

  function Writable(grants: Grants): set<Pattern> {
    set p | p in grants && p != Every && grants[p] >= WRITE
  }

  /** The one agent these grants let a client write to, if there is exactly one. */
  function ConnectionAgent(grants: Grants): (r: Option<Pattern>)
    ensures r.Some? ==> r.value in Writable(grants)
  {
    if Every in grants && grants[Every] >= WRITE then None
    else if |Writable(grants)| == 1 then
      OnlyOne(Writable(grants));
      var p :| p in Writable(grants);
      Some(p)
    else None
  }

  lemma {:induction false} OnlyOne(s: set<Pattern>)
    requires |s| == 1
    ensures exists p :: p in s
    ensures forall p, q | p in s && q in s :: p == q
  {
    assert s != {};
    var p :| p in s;
    assert |s - {p}| == 0;
    assert s == {p};
  }

  /** The client can write to this agent and to no other. */
  ghost predicate IsOnlyWritable(grants: Grants, a: Pattern) {
    Effective(grants, a) >= WRITE && forall p | p != a :: Effective(grants, p) < WRITE
  }

  /** It is never a guess: it names an agent exactly when that is the only one the client
      can write to. */
  lemma {:induction false} ConnectionIsTheOnlyOne(grants: Grants, a: Pattern)
    requires a != Every
    ensures ConnectionAgent(grants) == Some(a) <==> IsOnlyWritable(grants, a)
  {
    var w := Writable(grants);
    if ConnectionAgent(grants) == Some(a) {
      OnlyOne(w);
      forall p | p != a ensures Effective(grants, p) < WRITE {
        if p.Every? && Every in grants {
          WeakestIsLeast(grants);
        } else {
          assert p !in w;
        }
      }
    }
    if IsOnlyWritable(grants, a) {
      OnlyWritable(grants, a);
    }
  }

  lemma {:induction false} OnlyWritable(grants: Grants, a: Pattern)
    requires a != Every && IsOnlyWritable(grants, a)
    ensures ConnectionAgent(grants) == Some(a)
  {
    var other := UnnamedBut(grants, a);
    assert Effective(grants, other) < WRITE;
    assert forall p | p in Writable(grants) :: Effective(grants, p) >= WRITE;
    assert Writable(grants) == {a};
  }

  lemma {:induction false} UnnamedBut(grants: Grants, a: Pattern) returns (p: Pattern)
    ensures p.Named? && p !in grants && p != a
  {
    var n := PastAll(grants.Keys + {a});
    p := Named(n);
  }

  // ---- what a call demands -------------------------------------------------------------------

  /** An argument as it arrives: left out or null, of another type, or a string. */
  datatype Arg = Absent | Malformed | Given(p: Pattern)

  /** The arguments a demand looks at. For file tools, the agents the import file names and
      whose export stands at the destination. */
  datatype Args = Args(agent: Arg, source: Arg, target: Arg, fix: bool, crossAgent: bool, move: bool, apply: bool,
                       fileAgents: seq<Pattern>, fileOwner: Option<Pattern>)

  datatype Demand = Demand(pattern: Pattern, level: Level)

  /** Anything but a nonempty string demands every agent. */
  function Scope(a: Arg): Pattern {
    if a.Given? && a.p != Nobody then a.p else Every
  }

  /** The classifications of the table: each tool demands by one of these. */
  datatype Tool =
    | Unscoped
    | Scoped(level: Level)
    | ProcessWide(level: Level)
    | Health
    | Deep
    | Update
    | Merge
    | Export(confined: bool)
    | Import(confined: bool)

  function FileReads(names: seq<Pattern>, own: Pattern, n: nat): (r: seq<Demand>)
    requires n <= |names|
  {
    if n == 0 then []
    else if names[n-1] == own then FileReads(names, own, n - 1)
    else FileReads(names, own, n - 1) + [Demand(names[n-1], READ)]
  }

  function FileDemands(own: Pattern, confined: bool, joined: seq<Demand>): seq<Demand> {
    if !confined || own.Every? then [Demand(Every, WRITE)] else [Demand(own, WRITE)] + joined
  }

  function DemandsOf(tool: Tool, a: Args): (r: seq<Demand>) {
    match tool
    case Unscoped => [Demand(Nobody, READ)]
    case Scoped(level) => [Demand(Scope(a.agent), level)]
    case ProcessWide(level) => [Demand(Every, level)]
    case Health =>
      if !a.fix then [Demand(Scope(a.agent), READ)]
      else if a.crossAgent then [Demand(Scope(a.agent), WRITE), Demand(Every, WRITE)]
      else [Demand(Scope(a.agent), WRITE)]
    case Deep => [Demand(Scope(a.agent), if a.fix then WRITE else READ)]
    case Update => [Demand(Every, if a.apply then WRITE else READ)]
    case Merge => [Demand(Scope(a.source), if a.move then WRITE else READ), Demand(Scope(a.target), WRITE)]
    case Export(confined) =>
      var own := Scope(a.agent);
      FileDemands(own, confined,
        if a.fileOwner.None? || a.fileOwner.value == own then [] else [Demand(a.fileOwner.value, WRITE)])
    case Import(confined) =>
      var own := Scope(a.target);
      FileDemands(own, confined,
        if Every in a.fileAgents then (if own.Every? then [] else [Demand(Every, READ)])
        else FileReads(a.fileAgents, own, |a.fileAgents|))
  }

  // ---- the decision ------------------------------------------------------------------------------

  datatype Client = Client(name: string)

  datatype Config = Config(grants: map<Client, Grants>, perSubject: set<Client>)

  /** Who calls: the client, and the subject its token names, if any. */
  datatype Principal = Principal(client: Client, subject: bool)

  /** The ledger as it stands for the subject: the alias it has, and how an issuance ends. */
  datatype Ledger = Ledger(alias: Option<Pattern>, issuance: Result<Pattern>)

  /** An alias is an agent's name, and one that is there is what an issuance returns. */
  predicate KnowsAliases(l: Ledger) {
    && (l.alias.Some? ==> l.alias.value.Named? && l.issuance == Ok(l.alias.value))
    && (l.issuance.Ok? ==> l.issuance.value.Named?)
  }

  datatype Reason = NoPrincipal | Unclassified | NoSubject | NoBoundary | NoLedger | NotIssued | NotOwn | NotGranted | Reserved

  datatype Outcome = Denied(reason: Reason) | Admitted(args: Args, echo: Option<Pattern>)

  /** Which argument names the agent a tool creates rows under. */
  datatype Creates = Nothing | UnderAgent | UnderTarget

  datatype Handler = Handler(tool: Option<Tool>, fromConnection: bool, creates: Creates)

  function GrantsOf(c: Config, client: Client): Grants {
    if client in c.grants then c.grants[client] else map[]
  }

  predicate Asks(a: Args) {
    a.agent == Given(Me) || a.source == Given(Me) || a.target == Given(Me)
  }

  function Resolved(a: Arg, alias: Pattern): Arg {
    if a == Given(Me) then Given(alias) else a
  }

  function Rewritten(a: Args, alias: Pattern): Args {
    a.(agent := Resolved(a.agent, alias), source := Resolved(a.source, alias), target := Resolved(a.target, alias))
  }

  /** The agent the connection names, where the tool takes it and none is sent. */
  function Defaulted(h: Handler, a: Args, boundary: bool, grants: Grants): (r: Option<Pattern>) {
    if !h.fromConnection || !a.agent.Absent? then None
    else if boundary then Some(Me)
    else ConnectionAgent(grants)
  }

  function WithDefault(a: Args, d: Option<Pattern>): Args {
    if d.Some? then a.(agent := Given(d.value)) else a
  }

  predicate Within(demands: seq<Demand>, own: Option<Pattern>) {
    forall d | d in demands :: d.pattern == Nobody || (own.Some? && d.pattern == own.value)
  }

  predicate AllGranted(demands: seq<Demand>, grants: Grants) {
    forall d | d in demands :: d.pattern == Nobody || Effective(grants, d.pattern) >= d.level
  }

  function RowsUnder(h: Handler, a: Args): Arg {
    match h.creates
    case Nothing => Absent
    case UnderAgent => a.agent
    case UnderTarget => a.target
  }

  /** The wrapper of every handler: each step may refuse, and the arguments are rewritten
      before any demand is computed. */
  method Guarded(h: Handler, config: Option<Config>, principal: Option<Principal>, ledger: Option<Ledger>,
                 reserved: Pattern -> bool, arguments: Args)
      returns (r: Outcome)
    requires ledger.Some? ==> KnowsAliases(ledger.value)
    ensures config.None? ==> r == Admitted(arguments, None)
    ensures config.Some? && principal.None? ==> r == Denied(NoPrincipal)
    ensures config.Some? && principal.Some? && h.tool.None? ==> r == Denied(Unclassified)
    ensures config.Some? && principal.Some? && h.tool.Some? ==>
      r == Decision(h, config.value, principal.value, ledger, reserved, arguments)
    ensures config.Some? && principal.Some? && h.tool.Some? ==>
      RunsOnly(h, config.value, principal.value, ledger, reserved, arguments, r)
  {
    if config.None? {
      return Admitted(arguments, None);
    }
    if principal.None? {
      return Denied(NoPrincipal);
    }
    if h.tool.None? {
      return Denied(Unclassified);
    }
    DecisionIsThat(h, config.value, principal.value, ledger, reserved, arguments);
    var grants := GrantsOf(config.value, principal.value.client);
    var boundary := principal.value.client in config.value.perSubject;
    var alias := None;
    if boundary && !principal.value.subject {
      return Denied(NoSubject);
    }
    var args := arguments;
    var named := None;
    if h.fromConnection && args.agent.Absent? {
      if boundary {
        args := args.(agent := Given(Me));
      } else {
        named := ConnectionAgent(grants);
        if named.Some? {
          args := args.(agent := Given(named.value));
        }
      }
    }
    if Asks(args) {
      if !boundary {
        return Denied(NoBoundary);
      }
      if ledger.None? {
        return Denied(NoLedger);
      }
      if ledger.value.issuance.Refused? {
        return Denied(NotIssued);
      }
      alias := Some(ledger.value.issuance.value);
      args := Rewritten(args, alias.value);
    }
    var demands := DemandsOf(h.tool.value, args);
    if boundary {
      var own := if alias.Some? then alias else if ledger.Some? then ledger.value.alias else None;
      var inside := CheckOwn(demands, own);
      if !inside {
        return Denied(NotOwn);
      }
    }
    var granted := CheckGrants(demands, grants);
    if !granted {
      return Denied(NotGranted);
    }
    var under := RowsUnder(h, args);
    if under.Given? && under.p != Nobody && reserved(under.p) {
      return Denied(Reserved);
    }
    return Admitted(args, if alias.Some? then alias else named);
  }

  method CheckOwn(demands: seq<Demand>, own: Option<Pattern>) returns (ok: bool)
    ensures ok == Within(demands, own)
  {
    var i := 0;
    while i < |demands|
      invariant 0 <= i <= |demands| && Within(demands[..i], own)
    {
      var d := demands[i];
      if d.pattern != Nobody && !(own.Some? && d.pattern == own.value) {
        assert d in demands;
        return false;
      }
      assert demands[..i+1] == demands[..i] + [d];
      i := i + 1;
    }
    assert demands[..i] == demands;
    return true;
  }

  method CheckGrants(demands: seq<Demand>, grants: Grants) returns (ok: bool)
    ensures ok == AllGranted(demands, grants)
  {
    var i := 0;
    while i < |demands|
      invariant 0 <= i <= |demands| && AllGranted(demands[..i], grants)
    {
      var d := demands[i];
      if d.pattern != Nobody && Effective(grants, d.pattern) < d.level {
        assert d in demands;
        return false;
      }
      assert demands[..i+1] == demands[..i] + [d];
      i := i + 1;
    }
    assert demands[..i] == demands;
    return true;
  }

  /** What a call becomes before it is judged: the agent filled in, the sentinel resolved. */
  datatype Call = Call(args: Args, alias: Option<Pattern>, named: Option<Pattern>)

  function Prepared(h: Handler, boundary: bool, grants: Grants, ledger: Option<Ledger>, a: Args): Option<Call> {
    var named := Defaulted(h, a, boundary, grants);
    var b := WithDefault(a, named);
    if !Asks(b) then Some(Call(b, None, named))
    else if !boundary || ledger.None? || ledger.value.issuance.Refused? then None
    else Some(Call(Rewritten(b, ledger.value.issuance.value), Some(ledger.value.issuance.value), None))
  }

  /** The subject's own alias, as far as the call learnt it. */
  function OwnOf(call: Call, ledger: Option<Ledger>): Option<Pattern> {
    if call.alias.Some? then call.alias else if ledger.Some? then ledger.value.alias else None
  }

  function Decision(h: Handler, config: Config, principal: Principal, ledger: Option<Ledger>, reserved: Pattern -> bool, a: Args): Outcome
    requires h.tool.Some?
  {
    var grants, boundary := GrantsOf(config, principal.client), principal.client in config.perSubject;
    if boundary && !principal.subject then Denied(NoSubject)
    else match Prepared(h, boundary, grants, ledger, a)
      case None => Denied(if !boundary then NoBoundary else if ledger.None? then NoLedger else NotIssued)
      case Some(call) =>
        var demands, under := DemandsOf(h.tool.value, call.args), RowsUnder(h, call.args);
        if boundary && !Within(demands, OwnOf(call, ledger)) then Denied(NotOwn)
        else if !AllGranted(demands, grants) then Denied(NotGranted)
        else if under.Given? && under.p != Nobody && reserved(under.p) then Denied(Reserved)
        else Admitted(call.args, if call.alias.Some? then call.alias else call.named)
  }

  // ---- who may call what --------------------------------------------------------------------------

  /** These grants reach an agent, or every agent there could be. */
  ghost predicate Can(grants: Grants, p: Pattern, l: Level) {
    if p == Every then forall q | q != Every :: Effective(grants, q) >= l else Effective(grants, p) >= l
  }

  /** The same for an argument; one that names no agent reaches for all of them. */
  ghost predicate CanAt(grants: Grants, a: Arg, l: Level) {
    Can(grants, if a.Given? && a.p != Nobody then a.p else Every, l)
  }

  /** An argument that names one agent. */
  predicate NamesOne(a: Arg) {
    a.Given? && a.p != Nobody && a.p != Every
  }

  /** What each tool may be called for: reading is enough to look, writing is needed to change,
      and to leave the agent behind every agent must be in reach. */
  ghost predicate Allowed(tool: Tool, a: Args, grants: Grants) {
    match tool
    case Unscoped => true
    case Scoped(level) => CanAt(grants, a.agent, level)
    case ProcessWide(level) => Can(grants, Every, level)
    case Health => CanAt(grants, a.agent, if a.fix then WRITE else READ) && (a.fix && a.crossAgent ==> Can(grants, Every, WRITE))
    case Deep => CanAt(grants, a.agent, if a.fix then WRITE else READ)
    case Update => Can(grants, Every, if a.apply then WRITE else READ)
    case Merge => CanAt(grants, a.target, WRITE) && CanAt(grants, a.source, if a.move then WRITE else READ)
    case Export(confined) =>
      if confined && NamesOne(a.agent) then
        CanAt(grants, a.agent, WRITE) && (a.fileOwner.Some? && a.fileOwner.value != Nobody ==> Can(grants, a.fileOwner.value, WRITE))
      else Can(grants, Every, WRITE)
    case Import(confined) =>
      if confined && NamesOne(a.target) then
        && CanAt(grants, a.target, WRITE)
        && (if Every in a.fileAgents then Can(grants, Every, READ)
            else forall p | p in a.fileAgents && p != Nobody :: Can(grants, p, READ))
      else Can(grants, Every, WRITE)
  }

  /** A call that stays with one agent, whatever it does there. */
  ghost predicate StaysWith(tool: Tool, a: Args, own: Pattern) {
    match tool
    case Unscoped => true
    case Scoped(_) => a.agent == Given(own)
    case ProcessWide(_) => false
    case Health => a.agent == Given(own) && !(a.fix && a.crossAgent)
    case Deep => a.agent == Given(own)
    case Update => false
    case Merge => a.source == Given(own) && a.target == Given(own)
    case Export(confined) => confined && a.agent == Given(own) && (a.fileOwner.Some? ==> a.fileOwner.value in {own, Nobody})
    case Import(confined) => confined && a.target == Given(own) && forall p | p in a.fileAgents :: p == own || p == Nobody
  }

  lemma {:induction false} CanIsEffective(grants: Grants, p: Pattern, l: Level)
    ensures Can(grants, p, l) <==> Effective(grants, p) >= l
  {
    if p == Every && l > NONE {
      SweepReachesEveryAgent(grants, l);
    }
  }

  ghost predicate Granted(grants: Grants, d: Demand) {
    d.pattern == Nobody || Can(grants, d.pattern, d.level)
  }

  lemma {:induction false} GrantedOneByOne(demands: seq<Demand>, grants: Grants)
    ensures AllGranted(demands, grants) <==> forall i | 0 <= i < |demands| :: Granted(grants, demands[i])
  {
    forall i | 0 <= i < |demands| ensures Granted(grants, demands[i]) <==>
      (demands[i].pattern == Nobody || Effective(grants, demands[i].pattern) >= demands[i].level)
    {
      CanIsEffective(grants, demands[i].pattern, demands[i].level);
    }
  }

  lemma {:induction false} FileReadsAre(names: seq<Pattern>, own: Pattern, n: nat)
    requires n <= |names|
    ensures forall d :: d in FileReads(names, own, n) <==> d.level == READ && d.pattern != own && d.pattern in names[..n]
  {
    if n > 0 {
      FileReadsAre(names, own, n - 1);
      assert names[..n] == names[..n-1] + [names[n-1]];
    }
  }

  lemma {:induction false} LookingIsLess(grants: Grants, p: Pattern)
    requires Can(grants, p, WRITE)
    ensures Can(grants, p, READ)
  {
  }

  /** A call's demands are granted exactly when the tool may be called so. */
  lemma {:induction false} GrantedExactlyWhen(tool: Tool, a: Args, grants: Grants)
    ensures AllGranted(DemandsOf(tool, a), grants) <==> Allowed(tool, a, grants)
  {
    var ds := DemandsOf(tool, a);
    if tool.Import? && tool.confined && NamesOne(a.target) && Every !in a.fileAgents {
      ImportGranted(a, grants);
    } else {
      GrantedOneByOne(ds, grants);
    }
  }

  lemma {:induction false} ImportGranted(a: Args, grants: Grants)
    requires NamesOne(a.target) && Every !in a.fileAgents
    ensures AllGranted(DemandsOf(Import(true), a), grants) <==> Allowed(Import(true), a, grants)
  {
    var own := a.target.p;
    var looked := FileReads(a.fileAgents, own, |a.fileAgents|);
    FileReadsAre(a.fileAgents, own, |a.fileAgents|);
    assert a.fileAgents[..|a.fileAgents|] == a.fileAgents;
    assert forall d :: d in DemandsOf(Import(true), a) <==> d == Demand(own, WRITE) || d in looked;
    assert forall p | p in a.fileAgents && p != own :: Demand(p, READ) in looked;
    if Can(grants, own, WRITE) {
      LookingIsLess(grants, own);
    }
  }

  /** And they are all on one agent exactly when the call stays with it. */
  lemma {:induction false} WithinExactlyWhen(tool: Tool, a: Args, own: Pattern)
    requires own.Named?
    ensures Within(DemandsOf(tool, a), Some(own)) <==> StaysWith(tool, a, own)
  {
    var ds := DemandsOf(tool, a);
    if tool.Import? && tool.confined && NamesOne(a.target) && Every !in a.fileAgents {
      FileReadsAre(a.fileAgents, a.target.p, |a.fileAgents|);
      assert a.fileAgents[..|a.fileAgents|] == a.fileAgents;
      assert forall d :: d in ds <==> d == Demand(a.target.p, WRITE) || d in FileReads(a.fileAgents, a.target.p, |a.fileAgents|);
      assert forall p | p in a.fileAgents && p != a.target.p :: Demand(p, READ) in ds;
      assert Demand(a.target.p, WRITE) in ds;
    } else {
      assert forall d | d in ds :: exists i :: 0 <= i < |ds| && ds[i] == d;
      assert forall i | 0 <= i < |ds| :: ds[i] in ds;
    }
  }

  // ---- when a call runs, and on what ---------------------------------------------------------------

  /** The agent a call comes in under: the one sent; or, left out where the tool takes the
      connection's, `@me` for a per-subject client and else the one agent the client can write. */
  ghost predicate SentAs(h: Handler, a: Args, boundary: bool, grants: Grants, sent: Arg) {
    if h.fromConnection && a.agent.Absent? then
      if boundary then sent == Given(Me)
      else if sent.Given? then sent.p != Every && IsOnlyWritable(grants, sent.p)
      else sent == Absent && forall p | p != Every :: !IsOnlyWritable(grants, p)
    else sent == a.agent
  }

  /** An argument as the handler gets it: `@me` is the alias issued to the subject. */
  predicate ReadAs(sent: Arg, now: Arg, boundary: bool, ledger: Option<Ledger>) {
    if sent == Given(Me) then
      boundary && ledger.Some? && ledger.value.issuance.Ok? && now == Given(ledger.value.issuance.value)
    else now == sent
  }

  /** The arguments the handler gets for a call, when there are any. */
  ghost predicate CallIs(h: Handler, a: Args, boundary: bool, grants: Grants, ledger: Option<Ledger>, sent: Arg, b: Args) {
    && SentAs(h, a, boundary, grants, sent) && ReadAs(sent, b.agent, boundary, ledger)
    && ReadAs(a.source, b.source, boundary, ledger) && ReadAs(a.target, b.target, boundary, ledger)
    && b.fix == a.fix && b.crossAgent == a.crossAgent && b.move == a.move && b.apply == a.apply
    && b.fileAgents == a.fileAgents && b.fileOwner == a.fileOwner
  }

  /** A per-subject call stays with the subject's alias: the one issued for it, or, where
      nothing read `@me`, the one it has. */
  ghost predicate KeepsToItself(tool: Tool, a: Args, ledger: Option<Ledger>, sent: Arg, b: Args) {
    || tool.Unscoped?
    || (ledger.Some? && ledger.value.issuance.Ok? && StaysWith(tool, b, ledger.value.issuance.value)
          && (ledger.value.alias.Some? || sent == Given(Me) || a.source == Given(Me) || a.target == Given(Me)))
  }

  predicate CreatesReserved(h: Handler, b: Args, reserved: Pattern -> bool) {
    || (h.creates == UnderAgent && b.agent.Given? && b.agent.p != Nobody && reserved(b.agent.p))
    || (h.creates == UnderTarget && b.target.Given? && b.target.p != Nobody && reserved(b.target.p))
  }

  /** What must hold for a call to run on these arguments. */
  ghost predicate Runs(h: Handler, config: Config, principal: Principal, ledger: Option<Ledger>, reserved: Pattern -> bool,
                       a: Args, sent: Arg, b: Args)
    requires h.tool.Some?
  {
    var grants, boundary := GrantsOf(config, principal.client), principal.client in config.perSubject;
    && (boundary ==> principal.subject)
    && CallIs(h, a, boundary, grants, ledger, sent, b)
    && (boundary ==> KeepsToItself(h.tool.value, a, ledger, sent, b))
    && Allowed(h.tool.value, b, grants)
    && !CreatesReserved(h, b, reserved)
  }

  lemma {:induction false} DefaultedIs(h: Handler, a: Args, boundary: bool, grants: Grants, sent: Arg)
    ensures SentAs(h, a, boundary, grants, sent) <==> sent == WithDefault(a, Defaulted(h, a, boundary, grants)).agent
  {
    if h.fromConnection && a.agent.Absent? && !boundary {
      forall p | p != Every ensures ConnectionAgent(grants) == Some(p) <==> IsOnlyWritable(grants, p) {
        ConnectionIsTheOnlyOne(grants, p);
      }
    }
  }

  lemma {:induction false} PreparedIs(h: Handler, boundary: bool, grants: Grants, ledger: Option<Ledger>, a: Args, sent: Arg, b: Args)
    requires ledger.Some? ==> KnowsAliases(ledger.value)
    ensures CallIs(h, a, boundary, grants, ledger, sent, b) <==>
      var call := Prepared(h, boundary, grants, ledger, a);
      sent == WithDefault(a, Defaulted(h, a, boundary, grants)).agent && call.Some? && call.value.args == b
  {
    DefaultedIs(h, a, boundary, grants, sent);
  }

  lemma {:induction false} WithinNone(tool: Tool, a: Args)
    ensures Within(DemandsOf(tool, a), None) <==> tool.Unscoped?
  {
    var ds := DemandsOf(tool, a);
    assert ds[0] in ds;
  }

  lemma {:induction false} KeepsWithin(h: Handler, boundary: bool, grants: Grants, ledger: Option<Ledger>, a: Args, sent: Arg, b: Args)
    requires h.tool.Some? && (ledger.Some? ==> KnowsAliases(ledger.value)) && CallIs(h, a, boundary, grants, ledger, sent, b)
    ensures Prepared(h, boundary, grants, ledger, a).Some?
    ensures Within(DemandsOf(h.tool.value, b), OwnOf(Prepared(h, boundary, grants, ledger, a).value, ledger))
      <==> KeepsToItself(h.tool.value, a, ledger, sent, b)
  {
    PreparedIs(h, boundary, grants, ledger, a, sent, b);
    var own := OwnOf(Prepared(h, boundary, grants, ledger, a).value, ledger);
    WithinNone(h.tool.value, b);
    if own.Some? {
      WithinExactlyWhen(h.tool.value, b, own.value);
    }
  }

  /** A call runs exactly when the client may make it, and on exactly these arguments. */
  lemma {:induction false} RunsExactlyWhen(h: Handler, config: Config, principal: Principal, ledger: Option<Ledger>,
                                           reserved: Pattern -> bool, a: Args, sent: Arg, b: Args)
    requires h.tool.Some? && (ledger.Some? ==> KnowsAliases(ledger.value))
    requires var boundary := principal.client in config.perSubject;
      sent == WithDefault(a, Defaulted(h, a, boundary, GrantsOf(config, principal.client))).agent
    ensures Runs(h, config, principal, ledger, reserved, a, sent, b) <==>
      var r := Decision(h, config, principal, ledger, reserved, a); r.Admitted? && r.args == b
  {
    var grants, boundary := GrantsOf(config, principal.client), principal.client in config.perSubject;
    PreparedIs(h, boundary, grants, ledger, a, sent, b);
    GrantedExactlyWhen(h.tool.value, b, grants);
    if CallIs(h, a, boundary, grants, ledger, sent, b) {
      KeepsWithin(h, boundary, grants, ledger, a, sent, b);
    }
  }

  /** The decision is that one. */
  ghost predicate RunsOnly(h: Handler, config: Config, principal: Principal, ledger: Option<Ledger>, reserved: Pattern -> bool,
                           a: Args, r: Outcome)
    requires h.tool.Some?
  {
    && (r.Admitted? ==> exists sent :: Runs(h, config, principal, ledger, reserved, a, sent, r.args))
    && (forall sent, b | Runs(h, config, principal, ledger, reserved, a, sent, b) :: r.Admitted? && r.args == b)
  }

  lemma {:induction false} DecisionIsThat(h: Handler, config: Config, principal: Principal, ledger: Option<Ledger>,
                                          reserved: Pattern -> bool, a: Args)
    requires h.tool.Some? && (ledger.Some? ==> KnowsAliases(ledger.value))
    ensures RunsOnly(h, config, principal, ledger, reserved, a, Decision(h, config, principal, ledger, reserved, a))
  {
    var grants, boundary := GrantsOf(config, principal.client), principal.client in config.perSubject;
    var r, sent := Decision(h, config, principal, ledger, reserved, a), WithDefault(a, Defaulted(h, a, boundary, grants)).agent;
    if r.Admitted? {
      RunsExactlyWhen(h, config, principal, ledger, reserved, a, sent, r.args);
    }
    forall t, b | Runs(h, config, principal, ledger, reserved, a, t, b) ensures r.Admitted? && r.args == b {
      DefaultedIs(h, a, boundary, grants, t);
      RunsExactlyWhen(h, config, principal, ledger, reserved, a, t, b);
    }
  }

  /** A refused call is told what it lacks. */
  lemma {:induction false} RefusedFor(h: Handler, config: Config, principal: Principal, ledger: Option<Ledger>,
                                      reserved: Pattern -> bool, a: Args, sent: Arg, b: Args)
    requires h.tool.Some? && (ledger.Some? ==> KnowsAliases(ledger.value))
    requires Decision(h, config, principal, ledger, reserved, a).Denied?
    ensures var grants, boundary := GrantsOf(config, principal.client), principal.client in config.perSubject;
      match Decision(h, config, principal, ledger, reserved, a).reason
      case NoSubject => boundary && !principal.subject
      case NoBoundary => !boundary && (h.fromConnection || a.agent == Given(Me) || a.source == Given(Me) || a.target == Given(Me))
      case NoLedger => boundary && principal.subject && ledger.None?
      case NotIssued => boundary && principal.subject && ledger.Some? && ledger.value.issuance.Refused?
      case NotOwn => boundary && (CallIs(h, a, boundary, grants, ledger, sent, b) ==> !KeepsToItself(h.tool.value, a, ledger, sent, b))
      case NotGranted => CallIs(h, a, boundary, grants, ledger, sent, b) ==> !Allowed(h.tool.value, b, grants)
      case Reserved => CallIs(h, a, boundary, grants, ledger, sent, b) ==> CreatesReserved(h, b, reserved)
      case _ => false
  {
    var grants, boundary := GrantsOf(config, principal.client), principal.client in config.perSubject;
    PreparedIs(h, boundary, grants, ledger, a, sent, b);
    GrantedExactlyWhen(h.tool.value, b, grants);
    if CallIs(h, a, boundary, grants, ledger, sent, b) {
      KeepsWithin(h, boundary, grants, ledger, a, sent, b);
    }
  }

  // ---- what an admitted call can reach --------------------------------------------------------------

  /** A handler runs only when every reach its call demands is granted, on the arguments it
      is given; and a demand on all agents means every agent there could be. */
  lemma {:induction false} AdmittedIsGranted(h: Handler, config: Config, principal: Principal, ledger: Option<Ledger>,
                                             reserved: Pattern -> bool, a: Args, d: Demand, p: Pattern)
    requires h.tool.Some? && Decision(h, config, principal, ledger, reserved, a).Admitted?
    requires d in DemandsOf(h.tool.value, Decision(h, config, principal, ledger, reserved, a).args) && d.pattern != Nobody
    ensures Effective(GrantsOf(config, principal.client), d.pattern) >= d.level
    ensures d.pattern == Every && d.level > NONE && p != Every ==> Effective(GrantsOf(config, principal.client), p) >= d.level
  {
    if d.level > NONE {
      SweepReachesEveryAgent(GrantsOf(config, principal.client), d.level);
    }
  }

  /** A per-subject client reaches its own alias and nothing else, whatever its grants
      allow: no other agent, and no sweep. */
  lemma {:induction false} SubjectReachesOnlyItsOwn(h: Handler, config: Config, principal: Principal, ledger: Option<Ledger>,
                                                    reserved: Pattern -> bool, a: Args, d: Demand)
    requires h.tool.Some? && principal.client in config.perSubject && (ledger.Some? ==> KnowsAliases(ledger.value))
    requires Decision(h, config, principal, ledger, reserved, a).Admitted?
    requires d in DemandsOf(h.tool.value, Decision(h, config, principal, ledger, reserved, a).args) && d.pattern != Nobody
    ensures ledger.Some? && ledger.value.issuance == Ok(d.pattern) && d.pattern.Named?
  {
  }

  /** No scope argument a handler sees still reads `@me`, and none is changed but the ones
      that did and an agent left out of a tool that takes the connection's. */
  lemma {:induction false} NoSentinelIsLeft(h: Handler, config: Config, principal: Principal, ledger: Option<Ledger>,
                                            reserved: Pattern -> bool, a: Args)
    requires h.tool.Some? && (ledger.Some? ==> KnowsAliases(ledger.value))
    requires Decision(h, config, principal, ledger, reserved, a).Admitted?
    ensures var b := Decision(h, config, principal, ledger, reserved, a).args;
      && !Asks(b) && b == a.(agent := b.agent, source := b.source, target := b.target)
      && (a.source != Given(Me) ==> b.source == a.source) && (a.target != Given(Me) ==> b.target == a.target)
      && (a.agent != Given(Me) && !(h.fromConnection && a.agent.Absent?) ==> b.agent == a.agent)
  {
  }

  /** An agent the guard fills in is the only one the client's grants can write to, or the
      subject's own alias; and the caller is told which. */
  lemma {:induction false} FilledInIsTheOnlyOne(h: Handler, config: Config, principal: Principal, ledger: Option<Ledger>,
                                                reserved: Pattern -> bool, a: Args)
    requires h.tool.Some? && (ledger.Some? ==> KnowsAliases(ledger.value)) && a.agent.Absent?
    requires Decision(h, config, principal, ledger, reserved, a).Admitted?
    requires Decision(h, config, principal, ledger, reserved, a).args.agent != Absent
    ensures var r := Decision(h, config, principal, ledger, reserved, a);
      && r.echo.Some? && r.args.agent == Given(r.echo.value)
      && (principal.client in config.perSubject ==> ledger.Some? && ledger.value.issuance == Ok(r.echo.value))
      && (principal.client !in config.perSubject ==> IsOnlyWritable(GrantsOf(config, principal.client), r.echo.value))
  {
    var grants := GrantsOf(config, principal.client);
    if principal.client !in config.perSubject {
      ConnectionIsTheOnlyOne(grants, ConnectionAgent(grants).value);
    }
  }

  /** A move demands writing on both sides: an admitted one can write to its source. */
  lemma {:induction false} MoveWritesBoth(config: Config, principal: Principal, ledger: Option<Ledger>, reserved: Pattern -> bool,
                                          a: Args, h: Handler)
    requires h.tool == Some(Merge) && a.move && Decision(h, config, principal, ledger, reserved, a).Admitted?
    ensures var b := Decision(h, config, principal, ledger, reserved, a).args;
      && Effective(GrantsOf(config, principal.client), Scope(b.source)) >= WRITE
      && Effective(GrantsOf(config, principal.client), Scope(b.target)) >= WRITE
  {
    var b := Decision(h, config, principal, ledger, reserved, a).args;
    assert DemandsOf(Merge, b)[0] in DemandsOf(Merge, b) && DemandsOf(Merge, b)[1] in DemandsOf(Merge, b);
  }

  /** A call that names no agent demands every agent, whatever the tool; so does a repair
      that reaches beyond its agent, and file access that is not confined. */
  lemma {:induction false} OmissionDemandsEveryone(tool: Tool, a: Args)
    requires tool != Unscoped && Scope(a.agent) == Every && Scope(a.source) == Every && Scope(a.target) == Every
    requires tool.Scoped? || tool.ProcessWide? ==> tool.level > NONE
    ensures exists d :: d in DemandsOf(tool, a) && d.pattern == Every && d.level > NONE
  {
    var ds := DemandsOf(tool, a);
    assert ds[0] in ds;
  }
}
