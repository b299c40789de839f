/** Calibration shared by several server processes (cpersona/admin_handlers.py and
    cpersona/vector.py): each process's maps with what it owns and what it has changed, over
    one sidecar file that every write replaces whole. */
module Calibration {
  import opened Common

  datatype Agent = NoAgent | Agent(name: string)

  /** The per-agent axes, and an agent's entry on one of them. */
  datatype Axis = Thresholds | Gates | Betas
  datatype Slot = Slot(axis: Axis, agent: Agent)

  datatype Global = Threshold | Gate | Signal

  /** What the file holds; a global of no value is absent. */
  datatype Payload = Payload(dim: nat, scoring: nat, entries: map<Slot, real>, globals: map<Global, real>, calibratedAt: int)

  datatype Sidecar = Missing | Unreadable | Kept(payload: Payload)

  /** A process: its live values, the entries it owns, and those changed since its last
      write. */
  datatype Proc = Proc(live: map<Slot, real>, owned: set<Slot>, pending: set<Slot>,
                       globals: map<Global, real>, ownedGlobals: set<Global>, pendingGlobals: set<Global>)

  /** What this server measures with: the corpus's width, the scoring function, the default
      precision. */
  datatype Runtime = Runtime(dim: nat, scoring: nat, beta: real)

  /** A stored payload is carried only if it was measured on these vectors and this score. */
  predicate Fresh(f: Sidecar, rt: Runtime) {
    f.Kept? && f.payload.dim == rt.dim && f.payload.scoring == rt.scoring
  }

  function At(m: map<Slot, real>, s: Slot): Option<real> {
    if s in m then Some(m[s]) else None
  }

  function AtGlobal(m: map<Global, real>, g: Global): Option<real> {
    if g in m then Some(m[g]) else None
  }

  function Stored(f: Sidecar, s: Slot): Option<real> {
    if f.Kept? then At(f.payload.entries, s) else None
  }

  // ---- the steps of a process ------------------------------------------------------------------

  /** A change: claimed, and newer than the file until the next write. */
  function Recorded(p: Proc, slots: set<Slot>): Proc {
    p.(owned := p.owned + slots, pending := p.pending + slots)
  }

  function Measured(p: Proc, s: Slot, v: real): Proc {
    Recorded(p.(live := p.live[s := v]), {s})
  }

  function MeasuredGlobal(p: Proc, g: Global, v: real): Proc {
    p.(globals := p.globals[g := v], ownedGlobals := p.ownedGlobals + {g}, pendingGlobals := p.pendingGlobals + {g})
  }

  predicate Unchanged(p: Proc, s: Slot) {
    s in p.owned && s !in p.pending
  }

  predicate UnchangedGlobal(p: Proc, g: Global) {
    g in p.ownedGlobals && g !in p.pendingGlobals
  }

  /** Take the file's value for every owned entry this process has not changed. A stored
      global of no value leaves the live one. */
  function Refreshed(p: Proc, f: Sidecar, rt: Runtime): Proc {
    if !Fresh(f, rt) then p
    else
      var e, g := f.payload.entries, f.payload.globals;
      p.(
        live := map s | s in p.live.Keys + e.Keys && (if Unchanged(p, s) then s in e else s in p.live) ::
          if Unchanged(p, s) then e[s] else p.live[s],
        globals := map x | x in p.globals.Keys + g.Keys && (if UnchangedGlobal(p, x) && x in g then true else x in p.globals) ::
          if UnchangedGlobal(p, x) && x in g then g[x] else p.globals[x])
  }

  /** Startup: adopt the file but for what this process has changed, and own all of it. */
  function Restored(p: Proc, e: Payload): Proc {
    p.(
      live := p.live + map s | s in e.entries && s !in p.pending :: e.entries[s],
      owned := p.owned + e.entries.Keys,
      globals := p.globals + map g | g in e.globals && g !in p.pendingGlobals :: e.globals[g],
      ownedGlobals := p.ownedGlobals + {Threshold, Gate, Signal})
  }

  /** A boot that restores nothing still adopts the precision overrides. */
  function Preloaded(p: Proc, e: Payload): Proc {
    p.(
      live := p.live + map s | s in e.entries && s.axis.Betas? && s !in p.pending :: e.entries[s],
      owned := p.owned + set s | s in e.entries && s.axis.Betas?)
  }

  // ---- the write ------------------------------------------------------------------------------------

  /** set_recall_precision's beta: none given, a clear, or a new one. */
  datatype Override = Current | Clear | Set(beta: real)

  /** A calibration reaching its write: for an agent, the gate it measured, at which beta. */
  datatype Result = Result(agent: Agent, gate: Option<real>, gateBeta: Option<real>, signal: real, change: Override)

  function BetaOf(p: Proc, agent: Agent, rt: Runtime): real {
    if Slot(Betas, agent) in p.live then p.live[Slot(Betas, agent)] else rt.beta
  }

  /** A gate is dropped when the agent's beta changed while it was measured. */
  predicate GateStands(p: Proc, c: Result, rt: Runtime) {
    c.gate.Some? && !(c.change.Current? && c.gateBeta != Some(BetaOf(p, c.agent, rt)))
  }

  function WithGate(p: Proc, c: Result, rt: Runtime): Proc {
    if GateStands(p, c, rt) then
      MeasuredGlobal(Measured(p, Slot(Gates, c.agent), c.gate.value), Signal, c.signal)
    else p
  }

  /** The stored entries this process must not overwrite: those it does not own. */
  function CarriedEntries(p: Proc, f: Sidecar, rt: Runtime): map<Slot, real> {
    if Fresh(f, rt) then map s | s in f.payload.entries && s !in p.owned :: f.payload.entries[s] else map[]
  }

  /** A new beta that would be stored beside a gate measured at another. */
  predicate Unpaired(p: Proc, f: Sidecar, c: Result, rt: Runtime, stood: bool) {
    && !c.change.Current? && c.gateBeta.Some? && !stood
    && c.gateBeta.value != BetaOf(p, c.agent, rt)
    && (Slot(Gates, c.agent) in p.live || Slot(Gates, c.agent) in CarriedEntries(p, f, rt))
  }

  function WithChange(entries: map<Slot, real>, c: Result, unpaired: bool): map<Slot, real> {
    if unpaired || c.change.Current? then entries
    else if c.change.Clear? then entries - {Slot(Betas, c.agent)}
    else entries[Slot(Betas, c.agent) := c.change.beta]
  }

  /** What the file is replaced with. A global axis not owned is carried, absence and all. */
  function PayloadOf(p: Proc, f: Sidecar, c: Result, rt: Runtime, stood: bool, now: int): Payload {
    var entries := CarriedEntries(p, f, rt) + p.live;
    var globals := if Fresh(f, rt)
      then map g | g in p.globals.Keys + f.payload.globals.Keys && (if g in p.ownedGlobals then g in p.globals else g in f.payload.globals) ::
        if g in p.ownedGlobals then p.globals[g] else f.payload.globals[g]
      else p.globals;
    Payload(rt.dim, rt.scoring, WithChange(entries, c, Unpaired(p, f, c, rt, stood)), globals, now)
  }

  datatype Outcome = Outcome(proc: Proc, file: Sidecar)

  /** How a write goes: whether the lock was taken, an unreadable file copied aside, and the
      new file put in place. */
  datatype Fate = Fate(locked: bool, copied: bool, landed: bool)

  predicate MayReplace(f: Sidecar, fate: Fate) {
    fate.locked && (f.Unreadable? ==> fate.copied)
  }

  /** The change of a precision, adopted once the write that recorded it landed. */
  function Adopted(p: Proc, c: Result, unpaired: bool): Proc {
    if c.change.Current? || unpaired then p
    else p.(live := if c.change.Clear? then p.live - {Slot(Betas, c.agent)} else p.live[Slot(Betas, c.agent) := c.change.beta],
            owned := p.owned + {Slot(Betas, c.agent)})
  }

  /** A calibration's write: read, refresh, overlay, replace, under the sidecar's lock. */
  function Wrote(p: Proc, f: Sidecar, c: Result, rt: Runtime, fate: Fate, now: int): Outcome {
    var p1 := if MayReplace(f, fate) then Refreshed(p, f, rt) else p;
    var stood := GateStands(p1, c, rt);
    var p2 := WithGate(p1, c, rt);
    if !MayReplace(f, fate) || !fate.landed then Outcome(p2, f)
    else Outcome(
      Adopted(p2.(pending := {}, pendingGlobals := {}), c, Unpaired(p2, f, c, rt, stood)),
      Kept(PayloadOf(p2, f, c, rt, stood, now)))
  }

  /** An agent's entries on every axis. */
  function SlotsOf(agent: Agent): set<Slot> {
    {Slot(Thresholds, agent), Slot(Gates, agent), Slot(Betas, agent)}
  }

  /** Dropping an agent's calibration, from memory and from the file. The rewrite measures
      nothing, so it keeps the stored fingerprint and time. */
  function Purged(p: Proc, f: Sidecar, agent: Agent, fate: Fate): Outcome {
    var p1 := Recorded(p.(live := p.live - SlotsOf(agent)), SlotsOf(agent));
    var removed := (p.live.Keys * SlotsOf(agent) != {}) || (f.Kept? && f.payload.entries.Keys * SlotsOf(agent) != {});
    if !fate.locked || !f.Kept? || !removed || !fate.landed then Outcome(p1, f)
    else Outcome(p1.(pending := p1.pending - SlotsOf(agent)),
                 Kept(f.payload.(entries := f.payload.entries - SlotsOf(agent))))
  }

  // ---- one write loses nothing ----------------------------------------------------------------------

  /** A live entry is always owned, and so is a pending one. */
  predicate Owns(p: Proc) {
    p.live.Keys <= p.owned && p.pending <= p.owned && p.pendingGlobals <= p.ownedGlobals
  }

  /** What a calibration is writing now: the gate if it measured one, the beta if it was given
      a new one or told to clear it. */
  predicate Calibrates(c: Result, s: Slot) {
    s.agent == c.agent && ((s.axis.Gates? && c.gate.Some?) || (s.axis.Betas? && !c.change.Current?))
  }

  lemma {:induction false} RefreshedHolds(p: Proc, f: Sidecar, rt: Runtime)
    requires Owns(p)
    ensures var q := Refreshed(p, f, rt);
      && Owns(q) && q.owned == p.owned && q.pending == p.pending
      && (forall s :: At(q.live, s) == if Fresh(f, rt) && Unchanged(p, s) then Stored(f, s) else At(p.live, s))
  {
  }

  lemma {:induction false} MeasuringOwns(p: Proc, s: Slot, v: real, g: Global, x: real)
    requires Owns(p)
    ensures Owns(Measured(p, s, v)) && Owns(MeasuredGlobal(p, g, x))
  {
  }

  lemma {:induction false} BootOwns(p: Proc, e: Payload)
    requires Owns(p)
    ensures Owns(Restored(p, e)) && Owns(Preloaded(p, e))
  {
  }

  /** A boot takes from the file every entry, or every precision, that the process has not
      changed, and owns what it took; the other entries stay. */
  lemma {:induction false} BootAdopts(p: Proc, e: Payload, s: Slot, betasOnly: bool)
    ensures var q := if betasOnly then Preloaded(p, e) else Restored(p, e);
      var taken := s in e.entries && (betasOnly ==> s.axis == Betas);
      && At(q.live, s) == (if taken && s !in p.pending then Some(e.entries[s]) else At(p.live, s))
      && (s in q.owned <==> s in p.owned || taken) && q.pending == p.pending
      && (forall g :: AtGlobal(q.globals, g) == if !betasOnly && g in e.globals && g !in p.pendingGlobals
            then AtGlobal(e.globals, g) else AtGlobal(p.globals, g))
  {
  }

  lemma {:induction false} WriteOwns(p: Proc, f: Sidecar, c: Result, rt: Runtime, fate: Fate, now: int)
    requires Owns(p)
    ensures Owns(Wrote(p, f, c, rt, fate, now).proc)
  {
    RefreshedHolds(p, f, rt);
  }

  lemma {:induction false} PurgeOwns(p: Proc, f: Sidecar, agent: Agent, fate: Fate)
    requires Owns(p)
    ensures Owns(Purged(p, f, agent, fate).proc)
  {
  }

  /** What a landed write leaves in an entry it is not calibrating: the writer's own value if
      the writer changed it since its last write, else what the file held. */
  lemma {:induction false} WriteIs(p: Proc, f: Sidecar, c: Result, rt: Runtime, fate: Fate, now: int, s: Slot)
    requires Owns(p) && Fresh(f, rt) && MayReplace(f, fate) && fate.landed && !Calibrates(c, s)
    ensures Stored(Wrote(p, f, c, rt, fate, now).file, s) == if s in p.pending then At(p.live, s) else Stored(f, s)
  {
    RefreshedHolds(p, f, rt);
    EntryWritten(WithGate(Refreshed(p, f, rt), c, rt), f, c, rt, GateStands(Refreshed(p, f, rt), c, rt), now, s);
  }

  /** A locked write leaves every entry its process has not changed since its last write,
      and is not calibrating now, as it found it. */
  lemma {:induction false} WriteLeavesTheRest(p: Proc, f: Sidecar, c: Result, rt: Runtime, fate: Fate, now: int, s: Slot)
    requires Owns(p) && Fresh(f, rt) && s !in p.pending && !Calibrates(c, s)
    ensures Stored(Wrote(p, f, c, rt, fate, now).file, s) == Stored(f, s)
  {
    if MayReplace(f, fate) && fate.landed {
      WriteIs(p, f, c, rt, fate, now, s);
    }
  }

  /** Exactly when a write that lands keeps an entry it is not calibrating: unless the writer
      holds an unsaved change to it that is not what the file holds. */
  lemma {:induction false} WriteKeepsExactlyWhen(p: Proc, f: Sidecar, c: Result, rt: Runtime, fate: Fate, now: int, s: Slot)
    requires Owns(p) && Fresh(f, rt) && MayReplace(f, fate) && fate.landed && !Calibrates(c, s)
    ensures Stored(Wrote(p, f, c, rt, fate, now).file, s) == Stored(f, s)
      <==> (s !in p.pending || At(p.live, s) == Stored(f, s))
  {
    WriteIs(p, f, c, rt, fate, now, s);
  }

  lemma {:induction false} EntryWritten(q: Proc, f: Sidecar, c: Result, rt: Runtime, stood: bool, now: int, s: Slot)
    requires q.live.Keys <= q.owned && Fresh(f, rt) && (s.axis != Betas || s.agent != c.agent || c.change.Current?)
    ensures At(PayloadOf(q, f, c, rt, stood, now).entries, s) == if s in q.owned then At(q.live, s) else Stored(f, s)
  {
  }

  /** A global the process has not changed is left as found, but where the file holds none
      and the process owns it: there the live value is written. */
  lemma {:induction false} WriteLeavesGlobals(p: Proc, f: Sidecar, c: Result, rt: Runtime, fate: Fate, now: int, g: Global)
    requires Owns(p) && Fresh(f, rt) && MayReplace(f, fate) && fate.landed && g !in p.pendingGlobals && (g.Signal? ==> c.gate.None?)
    ensures var after := AtGlobal(Wrote(p, f, c, rt, fate, now).file.payload.globals, g);
      after == if g in f.payload.globals || g !in p.ownedGlobals then AtGlobal(f.payload.globals, g) else AtGlobal(p.globals, g)
  {
  }

  /** A rewrite that drops an agent touches no other agent's entries, and takes this one's
      out for good: what it could not remove from the file stays pending. */
  lemma {:induction false} PurgeTakesOnlyTheAgent(p: Proc, f: Sidecar, agent: Agent, fate: Fate, s: Slot)
    ensures var r := Purged(p, f, agent, fate);
      && (s !in SlotsOf(agent) ==> Stored(r.file, s) == Stored(f, s) && At(r.proc.live, s) == At(p.live, s))
      && (s in SlotsOf(agent) ==> At(r.proc.live, s).None? && (Stored(r.file, s).None? || s in r.proc.pending))
  {
  }

  // ---- what a landed write leaves, entry for entry -----------------------------------------------------

  /** An entry as a write goes on with it: the file's where the file may be carried and the
      process has no unsaved change to it, else the process's own. */
  function Entry(p: Proc, f: Sidecar, rt: Runtime, s: Slot): Option<real> {
    if f.Kept? && f.payload.dim == rt.dim && f.payload.scoring == rt.scoring && s !in p.pending then Stored(f, s) else At(p.live, s)
  }

  /** The precision the process has for an agent by then: an entry it does not own is none. */
  function PrecisionHeld(p: Proc, f: Sidecar, rt: Runtime, agent: Agent): real {
    var beta := Entry(p, f, rt, Slot(Betas, agent));
    if Slot(Betas, agent) in p.owned && beta.Some? then beta.value else rt.beta
  }

  /** The gate is kept: one was measured, at the precision the agent still has or is given. */
  predicate GateKept(p: Proc, f: Sidecar, c: Result, rt: Runtime) {
    c.gate.Some? && (c.change != Current || c.gateBeta == Some(PrecisionHeld(p, f, rt, c.agent)))
  }

  /** A change of precision is refused: no gate was measured at it, and the agent has one
      measured at another. */
  predicate ChangeRefused(p: Proc, f: Sidecar, c: Result, rt: Runtime) {
    && c.change != Current && c.gate.None?
    && c.gateBeta.Some? && c.gateBeta != Some(PrecisionHeld(p, f, rt, c.agent))
    && Entry(p, f, rt, Slot(Gates, c.agent)).Some?
  }

  /** What an entry is once the write has landed. */
  function Due(p: Proc, f: Sidecar, c: Result, rt: Runtime, s: Slot): Option<real> {
    if s == Slot(Gates, c.agent) && GateKept(p, f, c, rt) then c.gate
    else if s == Slot(Betas, c.agent) && c.change == Clear && !ChangeRefused(p, f, c, rt) then None
    else if s == Slot(Betas, c.agent) && c.change.Set? && !ChangeRefused(p, f, c, rt) then Some(c.change.beta)
    else Entry(p, f, rt, s)
  }

  /** What a global is: a stored one of no value does not replace an owned one. */
  function DueGlobal(p: Proc, f: Sidecar, c: Result, rt: Runtime, g: Global): Option<real> {
    if g == Signal && GateKept(p, f, c, rt) then Some(c.signal)
    else if f.Kept? && f.payload.dim == rt.dim && f.payload.scoring == rt.scoring && g !in p.pendingGlobals
         && (g in f.payload.globals || g !in p.ownedGlobals) then AtGlobal(f.payload.globals, g)
    else AtGlobal(p.globals, g)
  }

  predicate NowOwned(p: Proc, f: Sidecar, c: Result, rt: Runtime, s: Slot) {
    || (s == Slot(Gates, c.agent) && GateKept(p, f, c, rt))
    || (s == Slot(Betas, c.agent) && c.change != Current && !ChangeRefused(p, f, c, rt))
  }

  /** After a write that landed the file holds what is due in every entry and global, stamped
      with this server's width and score; the process holds the same of what it owns, which is
      what it owned and what it has just calibrated; and nothing is unsaved. */
  ghost predicate Calibrated(p: Proc, f: Sidecar, c: Result, rt: Runtime, now: int, q: Proc, h: Sidecar) {
    && h.Kept? && h.payload.dim == rt.dim && h.payload.scoring == rt.scoring && h.payload.calibratedAt == now
    && (forall s :: Stored(h, s) == Due(p, f, c, rt, s))
    && (forall g :: AtGlobal(h.payload.globals, g) == DueGlobal(p, f, c, rt, g))
    && (forall s :: At(q.live, s) == if s in q.owned then Due(p, f, c, rt, s) else None)
    && (forall s :: s in q.owned <==> s in p.owned || NowOwned(p, f, c, rt, s))
    && q.pending == {} && q.pendingGlobals == {}
  }

  /** What the process decides with once refreshed. */
  lemma {:induction false} DecidesAsHeld(p: Proc, f: Sidecar, c: Result, rt: Runtime)
    requires Owns(p)
    ensures var q := Refreshed(p, f, rt);
      && GateStands(q, c, rt) == GateKept(p, f, c, rt)
      && Unpaired(WithGate(q, c, rt), f, c, rt, GateStands(q, c, rt)) == ChangeRefused(p, f, c, rt)
  {
    var q := Refreshed(p, f, rt);
    RefreshedHolds(p, f, rt);
    assert At(q.live, Slot(Betas, c.agent)).Some? <==> Slot(Betas, c.agent) in q.live;
    assert BetaOf(q, c.agent, rt) == PrecisionHeld(p, f, rt, c.agent);
    assert At(q.live, Slot(Gates, c.agent)).Some? <==> Slot(Gates, c.agent) in q.live;
  }

  lemma {:induction false} GateIsDue(p: Proc, f: Sidecar, c: Result, rt: Runtime, s: Slot)
    requires Owns(p)
    ensures var q := WithGate(Refreshed(p, f, rt), c, rt);
      && At(q.live, s) == (if s == Slot(Gates, c.agent) && GateKept(p, f, c, rt) then c.gate
                           else if s in p.owned then Entry(p, f, rt, s) else None)
      && (s in q.owned <==> s in p.owned || (s == Slot(Gates, c.agent) && GateKept(p, f, c, rt)))
  {
    RefreshedHolds(p, f, rt);
    DecidesAsHeld(p, f, c, rt);
  }

  lemma {:induction false} EntryIsDue(p: Proc, f: Sidecar, c: Result, rt: Runtime, now: int, s: Slot)
    requires Owns(p)
    ensures var q := Refreshed(p, f, rt);
      At(PayloadOf(WithGate(q, c, rt), f, c, rt, GateStands(q, c, rt), now).entries, s) == Due(p, f, c, rt, s)
  {
    DecidesAsHeld(p, f, c, rt);
    GateIsDue(p, f, c, rt, s);
  }

  lemma {:induction false} GlobalIsDue(p: Proc, f: Sidecar, c: Result, rt: Runtime, now: int, g: Global)
    requires Owns(p)
    ensures var q := Refreshed(p, f, rt);
      AtGlobal(PayloadOf(WithGate(q, c, rt), f, c, rt, GateStands(q, c, rt), now).globals, g) == DueGlobal(p, f, c, rt, g)
  {
    DecidesAsHeld(p, f, c, rt);
  }

  lemma {:induction false} LiveIsDue(p: Proc, f: Sidecar, c: Result, rt: Runtime, s: Slot)
    requires Owns(p)
    ensures var q := WithGate(Refreshed(p, f, rt), c, rt);
      var r := Adopted(q.(pending := {}, pendingGlobals := {}), c, ChangeRefused(p, f, c, rt));
      && At(r.live, s) == (if s in r.owned then Due(p, f, c, rt, s) else None)
      && (s in r.owned <==> s in p.owned || NowOwned(p, f, c, rt, s))
  {
    GateIsDue(p, f, c, rt, s);
  }

  lemma {:induction false} WriteCalibrates(p: Proc, f: Sidecar, c: Result, rt: Runtime, fate: Fate, now: int)
    requires Owns(p) && MayReplace(f, fate) && fate.landed
    ensures var r := Wrote(p, f, c, rt, fate, now); Calibrated(p, f, c, rt, now, r.proc, r.file)
  {
    DecidesAsHeld(p, f, c, rt);
    var r := Wrote(p, f, c, rt, fate, now);
    forall s ensures Stored(r.file, s) == Due(p, f, c, rt, s) {
      EntryIsDue(p, f, c, rt, now, s);
    }
    forall s ensures At(r.proc.live, s) == (if s in r.proc.owned then Due(p, f, c, rt, s) else None)
      ensures s in r.proc.owned <==> s in p.owned || NowOwned(p, f, c, rt, s)
    {
      LiveIsDue(p, f, c, rt, s);
    }
    forall g ensures AtGlobal(r.file.payload.globals, g) == DueGlobal(p, f, c, rt, g) {
      GlobalIsDue(p, f, c, rt, now, g);
    }
  }

  /** What a write that does not reach the file leaves in memory: the refresh, where the file
      could be read, and the gate. */
  ghost predicate Applied(p: Proc, f: Sidecar, c: Result, rt: Runtime, q: Proc) {
    && (forall s :: At(q.live, s) == if s == Slot(Gates, c.agent) && GateKept(p, f, c, rt) then c.gate
          else if s in p.owned then Entry(p, f, rt, s) else None)
    && (forall g :: AtGlobal(q.globals, g) ==
          if g == Signal && GateKept(p, f, c, rt) then Some(c.signal)
          else if f.Kept? && f.payload.dim == rt.dim && f.payload.scoring == rt.scoring && g in p.ownedGlobals - p.pendingGlobals
            && g in f.payload.globals then AtGlobal(f.payload.globals, g)
          else AtGlobal(p.globals, g))
    && q.owned == (if GateKept(p, f, c, rt) then p.owned + {Slot(Gates, c.agent)} else p.owned)
    && q.pending == (if GateKept(p, f, c, rt) then p.pending + {Slot(Gates, c.agent)} else p.pending)
    && q.ownedGlobals == (if GateKept(p, f, c, rt) then p.ownedGlobals + {Signal} else p.ownedGlobals)
    && q.pendingGlobals == (if GateKept(p, f, c, rt) then p.pendingGlobals + {Signal} else p.pendingGlobals)
  }

  lemma {:induction false} GateApplies(p: Proc, f: Sidecar, c: Result, rt: Runtime)
    requires Owns(p)
    ensures Applied(p, f, c, rt, WithGate(Refreshed(p, f, rt), c, rt))
  {
    DecidesAsHeld(p, f, c, rt);
    var q := WithGate(Refreshed(p, f, rt), c, rt);
    forall s ensures At(q.live, s) == if s == Slot(Gates, c.agent) && GateKept(p, f, c, rt) then c.gate
      else if s in p.owned then Entry(p, f, rt, s) else None
    {
      GateIsDue(p, f, c, rt, s);
    }
  }

  lemma {:induction false} WriteUnsaved(p: Proc, f: Sidecar, c: Result, rt: Runtime, fate: Fate, now: int)
    requires Owns(p) && !(MayReplace(f, fate) && fate.landed)
    ensures var r := Wrote(p, f, c, rt, fate, now);
      r.file == f && Applied(p, if MayReplace(f, fate) then f else Missing, c, rt, r.proc)
  {
    GateApplies(p, if MayReplace(f, fate) then f else Missing, c, rt);
  }

  lemma {:induction false} WriteReported(p: Proc, f: Sidecar, c: Result, rt: Runtime, fate: Fate, now: int)
    requires Owns(p)
    ensures var r := Wrote(p, f, c, rt, fate, now);
      if MayReplace(f, fate) && fate.landed then Calibrated(p, f, c, rt, now, r.proc, r.file)
      else r.file == f && Applied(p, if MayReplace(f, fate) then f else Missing, c, rt, r.proc)
  {
    if MayReplace(f, fate) && fate.landed {
      WriteCalibrates(p, f, c, rt, fate, now);
    } else {
      WriteUnsaved(p, f, c, rt, fate, now);
    }
  }

  // ---- over every run ---------------------------------------------------------------------------------

  datatype World = World(file: Sidecar, procs: map<nat, Proc>)

  /** A step of one process. A write is one step, because every process takes the lock for
      it; measurements land in memory on their own. */
  datatype Event =
    | Boot(p: nat, betasOnly: bool)
    | Measure(p: nat, s: Slot, v: real)
    | MeasureGlobal(p: nat, g: Global, v: real)
    | Write(p: nat, c: Result, fate: Fate, now: int)
    | Purge(p: nat, agent: Agent, purgeFate: Fate)
    | Exit(p: nat)

  function Idle(): Proc {
    Proc(map[], {}, {}, map[], {}, {})
  }

  function ProcAt(w: World, p: nat): Proc {
    if p in w.procs then w.procs[p] else Idle()
  }

  function Step(w: World, e: Event, rt: Runtime): World {
    match e
    case Boot(p, betasOnly) =>
      if !w.file.Kept? then w.(procs := w.procs[p := ProcAt(w, p)])
      else if betasOnly || !Fresh(w.file, rt) then w.(procs := w.procs[p := Preloaded(ProcAt(w, p), w.file.payload)])
      else w.(procs := w.procs[p := Restored(ProcAt(w, p), w.file.payload)])
    case Measure(p, s, v) => w.(procs := w.procs[p := Measured(ProcAt(w, p), s, v)])
    case MeasureGlobal(p, g, v) => w.(procs := w.procs[p := MeasuredGlobal(ProcAt(w, p), g, v)])
    case Write(p, c, fate, now) =>
      var r := Wrote(ProcAt(w, p), w.file, c, rt, fate, now);
      World(r.file, w.procs[p := r.proc])
    case Purge(p, agent, fate) =>
      var r := Purged(ProcAt(w, p), w.file, agent, fate);
      World(r.file, w.procs[p := r.proc])
    case Exit(p) => w.(procs := w.procs - {p})
  }

  ghost predicate StepsAt(run: seq<World>, events: seq<Event>, rt: Runtime, n: int)
    requires 0 <= n < |events| < |run|
  {
    run[n+1] == Step(run[n], events[n], rt)
  }

  /** Any run of any number of processes over one file, all of one width and score. */
  ghost predicate IsRun(run: seq<World>, events: seq<Event>, rt: Runtime) {
    && |run| == |events| + 1 && run[0].procs == map[]
    && forall n | 0 <= n < |events| :: StepsAt(run, events, rt, n)
  }

  /** A step that measures an entry, sets it, or purges it. */
  predicate Touches(e: Event, s: Slot) {
    match e
    case Measure(_, m, _) => m == s
    case Write(_, c, _, _) => Calibrates(c, s)
    case Purge(_, agent, _) => s in SlotsOf(agent)
    case _ => false
  }

  /** Every change to an entry that a process has yet to write agrees with the file. */
  predicate Settled(w: World, s: Slot) {
    forall p | p in w.procs && s in w.procs[p].pending :: At(w.procs[p].live, s) == Stored(w.file, s)
  }

  ghost predicate AllOwn(w: World) {
    forall p | p in w.procs :: Owns(w.procs[p])
  }

  lemma {:induction false} RunOwns(run: seq<World>, events: seq<Event>, rt: Runtime, n: nat)
    requires IsRun(run, events, rt) && n < |run|
    ensures AllOwn(run[n])
  {
    if n > 0 {
      RunOwns(run, events, rt, n - 1);
      assert StepsAt(run, events, rt, n - 1);
      StepOwns(run[n-1], events[n-1], rt);
    }
  }

  /** What a process holds it owns, after every step. */
  lemma {:induction false} StepOwns(w: World, e: Event, rt: Runtime)
    requires AllOwn(w)
    ensures AllOwn(Step(w, e, rt))
  {
    var p := ProcAt(w, e.p);
    assert Owns(p);
    match e {
      case Boot(_, _) =>
        if w.file.Kept? {
          BootOwns(p, w.file.payload);
        }
      case Measure(_, s, v) => MeasuringOwns(p, s, v, Gate, 0.0);
      case MeasureGlobal(_, g, v) => MeasuringOwns(p, Slot(Gates, NoAgent), 0.0, g, v);
      case Write(_, c, fate, now) => WriteOwns(p, w.file, c, rt, fate, now);
      case Purge(_, agent, fate) => PurgeOwns(p, w.file, agent, fate);
      case Exit(_) =>
    }
  }

  /** A write by a process whose unsaved change to an entry is not what the file now holds. */
  predicate Overwrites(w: World, e: Event, s: Slot) {
    e.Write? && MayReplace(w.file, e.fate) && e.fate.landed
    && s in ProcAt(w, e.p).pending && At(ProcAt(w, e.p).live, s) != Stored(w.file, s)
  }

  /** A step that does not touch an entry keeps it in the file unless it overwrites it. */
  lemma {:induction false} StepKeepsExactlyWhen(w: World, e: Event, rt: Runtime, s: Slot)
    requires AllOwn(w) && Fresh(w.file, rt) && !Touches(e, s)
    ensures Fresh(Step(w, e, rt).file, rt)
    ensures Stored(Step(w, e, rt).file, s) == Stored(w.file, s) <==> !Overwrites(w, e, s)
  {
    var p := ProcAt(w, e.p);
    match e {
      case Write(_, c, fate, now) =>
        if MayReplace(w.file, fate) && fate.landed {
          WriteKeepsExactlyWhen(p, w.file, c, rt, fate, now, s);
        }
      case Purge(_, agent, fate) => PurgeTakesOnlyTheAgent(p, w.file, agent, fate, s);
      case _ =>
    }
  }

  /** Nothing overwrites an entry between two states of a run. */
  ghost predicate NoneOverwrites(run: seq<World>, events: seq<Event>, i: nat, j: nat, s: Slot)
    requires |run| == |events| + 1 && i <= j < |run|
  {
    forall n | i <= n < j :: !Overwrites(run[n], events[n], s)
  }

  /** The file keeps an entry throughout. */
  ghost predicate KeepsEntry(run: seq<World>, i: nat, j: nat, s: Slot)
    requires i <= j < |run|
  {
    forall k | i <= k <= j :: Stored(run[k].file, s) == Stored(run[i].file, s)
  }

  /** No update is lost, and exactly when: over every stretch of a run in which nobody
      measures, sets or purges an entry, from a file of the running width and score, the file
      keeps it throughout if and only if no process in between writes while it holds an
      unsaved change to it that the file does not have. */
  lemma {:induction false} NoUpdateIsLost(run: seq<World>, events: seq<Event>, rt: Runtime, i: nat, j: nat, s: Slot)
    requires IsRun(run, events, rt) && i <= j < |run| && Fresh(run[i].file, rt)
    requires forall n | i <= n < j :: !Touches(events[n], s)
    ensures Fresh(run[j].file, rt)
    ensures KeepsEntry(run, i, j, s) <==> NoneOverwrites(run, events, i, j, s)
    decreases j
  {
    if i < j {
      NoUpdateIsLost(run, events, rt, i, j - 1, s);
      RunOwns(run, events, rt, j - 1);
      assert StepsAt(run, events, rt, j - 1);
      StepKeepsExactlyWhen(run[j-1], events[j-1], rt, s);
      assert KeepsEntry(run, i, j, s) ==> KeepsEntry(run, i, j - 1, s);
      assert NoneOverwrites(run, events, i, j, s) ==> NoneOverwrites(run, events, i, j - 1, s);
    }
  }

  lemma {:induction false} StepSettles(w: World, e: Event, rt: Runtime, s: Slot)
    requires AllOwn(w) && Fresh(w.file, rt) && Settled(w, s) && !Touches(e, s)
    ensures Settled(Step(w, e, rt), s) && !Overwrites(w, e, s)
  {
    var p := ProcAt(w, e.p);
    StepKeepsExactlyWhen(w, e, rt, s);
    match e {
      case Write(_, c, fate, now) => WriteSettles(p, w.file, c, rt, fate, now, s);
      case _ =>
    }
  }

  lemma {:induction false} WriteSettles(p: Proc, f: Sidecar, c: Result, rt: Runtime, fate: Fate, now: int, s: Slot)
    requires Owns(p) && Fresh(f, rt) && !Calibrates(c, s) && (s in p.pending ==> At(p.live, s) == Stored(f, s))
    ensures var r := Wrote(p, f, c, rt, fate, now).proc; s in r.pending ==> At(r.live, s) == Stored(f, s)
  {
    RefreshedHolds(p, f, rt);
  }

  /** Where every unsaved change to an entry is what the file holds, nothing overwrites it
      later; an entry just written and changed by no other process is in that position. */
  lemma {:induction false} SettledStays(run: seq<World>, events: seq<Event>, rt: Runtime, i: nat, j: nat, s: Slot)
    requires IsRun(run, events, rt) && i <= j < |run|
    requires Fresh(run[i].file, rt) && Settled(run[i], s)
    requires forall n | i <= n < j :: !Touches(events[n], s)
    ensures Settled(run[j], s) && NoneOverwrites(run, events, i, j, s)
    ensures Fresh(run[j].file, rt) && Stored(run[j].file, s) == Stored(run[i].file, s)
    decreases j
  {
    if i < j {
      SettledStays(run, events, rt, i, j - 1, s);
      RunOwns(run, events, rt, j - 1);
      assert StepsAt(run, events, rt, j - 1);
      StepSettles(run[j-1], events[j-1], rt, s);
      StepKeepsExactlyWhen(run[j-1], events[j-1], rt, s);
    }
  }

  /** The world after A purges an agent nobody holds anything of, and B then measures one of
      its entries and writes. */
  function PurgedThenMeasured(w: World, rt: Runtime, a: nat, b: nat, s: Slot, v: real, now: int): World {
    var fate := Fate(true, true, true);
    var c := Result(s.agent, None, None, 0.0, Current);
    Step(Step(Step(w, Purge(a, s.agent, fate), rt), Measure(b, s, v), rt), Write(b, c, fate, now), rt)
  }

  /** An update that is lost: A's purge removed nothing, so the code leaves it pending; B
      measures the agent anew and saves; A's next write, for any other agent, takes B's entry
      out of the file again. */
  lemma {:induction false} AnIdlePurgeErases(w: World, rt: Runtime, a: nat, b: nat, s: Slot, v: real, other: Agent, now: int)
    requires AllOwn(w) && Fresh(w.file, rt) && a != b && other != s.agent
    requires ProcAt(w, a).live.Keys !! SlotsOf(s.agent) && w.file.payload.entries.Keys !! SlotsOf(s.agent)
    ensures var saved := PurgedThenMeasured(w, rt, a, b, s, v, now);
      var e := Write(a, Result(other, None, None, 0.0, Current), Fate(true, true, true), now);
      && Stored(saved.file, s) == Some(v) && !Touches(e, s) && Overwrites(saved, e, s)
      && Stored(Step(saved, e, rt).file, s) == None
  {
    var fate := Fate(true, true, true);
    var c := Result(s.agent, None, None, 0.0, Current);
    var w1 := Step(w, Purge(a, s.agent, fate), rt);
    var w2 := Step(w1, Measure(b, s, v), rt);
    var w3 := Step(w2, Write(b, c, fate, now), rt);
    var e := Write(a, Result(other, None, None, 0.0, Current), fate, now);
    StepOwns(w, Purge(a, s.agent, fate), rt);
    StepOwns(w1, Measure(b, s, v), rt);
    StepOwns(w2, Write(b, c, fate, now), rt);
    assert s in SlotsOf(s.agent) by {
      match s.axis { case Thresholds => case Gates => case Betas => }
    }
    assert s in w1.procs[a].pending && At(w1.procs[a].live, s).None?;
    WriteIs(ProcAt(w2, b), w2.file, c, rt, fate, now, s);
    assert w3.procs[a] == w1.procs[a];
    WriteIs(ProcAt(w3, a), w3.file, e.c, rt, fate, now, s);
  }

  /** A step by which some process measures an entry or sets it to a value. */
  predicate Gives(e: Event, s: Slot) {
    match e
    case Measure(_, m, _) => m == s
    case Write(_, c, _, _) => s.agent == c.agent && ((s.axis.Gates? && c.gate.Some?) || (s.axis.Betas? && c.change.Set?))
    case _ => false
  }

  /** A process holds a value for an entry that it has not saved. */
  predicate HeldUnsaved(w: World, s: Slot) {
    exists p :: p in w.procs && s in w.procs[p].pending && s in w.procs[p].live
  }

  /** A write that gives no value leaves absent what was absent. */
  lemma {:induction false} WriteGivesNothing(p: Proc, f: Sidecar, c: Result, rt: Runtime, fate: Fate, now: int, s: Slot)
    requires Owns(p) && Fresh(f, rt) && Stored(f, s).None? && !(s in p.pending && s in p.live)
    requires !(s.agent == c.agent && ((s.axis.Gates? && c.gate.Some?) || (s.axis.Betas? && c.change.Set?)))
    ensures var r := Wrote(p, f, c, rt, fate, now);
      && Fresh(r.file, rt) && Stored(r.file, s).None? && !(s in r.proc.pending && s in r.proc.live)
  {
    RefreshedHolds(p, f, rt);
    var q := Refreshed(p, f, rt);
    if MayReplace(f, fate) && fate.landed && !Calibrates(c, s) {
      WriteIs(p, f, c, rt, fate, now, s);
    } else if MayReplace(f, fate) && fate.landed {
      assert At(q.live, s).None? && WithGate(q, c, rt).owned >= q.owned;
      assert At(WithGate(q, c, rt).live, s).None?;
    }
  }

  /** A purged agent returns only if some process measures it again, or held an unsaved
      change for it when it was purged. */
  lemma {:induction false} PurgedStaysGone(run: seq<World>, events: seq<Event>, rt: Runtime, i: nat, j: nat, s: Slot)
    requires IsRun(run, events, rt) && i <= j < |run|
    requires Fresh(run[i].file, rt) && Stored(run[i].file, s).None? && !HeldUnsaved(run[i], s)
    requires forall n | i <= n < j :: !Gives(events[n], s)
    ensures Fresh(run[j].file, rt) && Stored(run[j].file, s).None? && !HeldUnsaved(run[j], s)
    decreases j
  {
    if i < j {
      PurgedStaysGone(run, events, rt, i, j - 1, s);
      RunOwns(run, events, rt, j - 1);
      assert StepsAt(run, events, rt, j - 1);
      NothingGiven(run[j-1], events[j-1], rt, s);
    }
  }

  lemma {:induction false} NothingGiven(w: World, e: Event, rt: Runtime, s: Slot)
    requires AllOwn(w) && Fresh(w.file, rt) && Stored(w.file, s).None? && !HeldUnsaved(w, s) && !Gives(e, s)
    ensures var v := Step(w, e, rt); Fresh(v.file, rt) && Stored(v.file, s).None? && !HeldUnsaved(v, s)
  {
    var p := ProcAt(w, e.p);
    assert !(s in p.pending && s in p.live);
    match e {
      case Write(_, c, fate, now) => WriteGivesNothing(p, w.file, c, rt, fate, now, s);
      case Purge(_, agent, fate) => PurgeTakesOnlyTheAgent(p, w.file, agent, fate, s);
      case _ =>
    }
  }

  // ---- the code -----------------------------------------------------------------------------------------

  /** The sidecar file. */
  class SidecarFile {
    var content: Sidecar

    constructor (f: Sidecar)
      ensures content == f
    {
      content := f;
    }
  }

  /** A process's calibration. */
  class Calibrator {
    var live: map<Slot, real>
    var owned: set<Slot>
    var pending: set<Slot>
    var globals: map<Global, real>
    var ownedGlobals: set<Global>
    var pendingGlobals: set<Global>

    function State(): Proc
      reads this
    {
      Proc(live, owned, pending, globals, ownedGlobals, pendingGlobals)
    }

    constructor ()
      ensures State() == Idle()
    {
      live, owned, pending := map[], {}, {};
      globals, ownedGlobals, pendingGlobals := map[], {}, {};
    }

    method RecordChange(agent: Agent, axes: set<Axis>)
      modifies this
      ensures State() == Recorded(old(State()), set a | a in axes :: Slot(a, agent))
    {
      var slots := set a | a in axes :: Slot(a, agent);
      owned, pending := owned + slots, pending + slots;
    }

    /** Take the file's value for every owned entry this process has not changed. */
    method RefreshUnchanged(f: Sidecar, rt: Runtime)
      modifies this
      ensures State() == Refreshed(old(State()), f, rt)
    {
      if !Fresh(f, rt) {
        return;
      }
      ghost var before := State();
      var e, g := f.payload.entries, f.payload.globals;
      var todo := owned - pending;
      while todo != {}
        invariant todo <= before.owned - before.pending
        invariant State() == before.(live := live)
        invariant forall s :: if s in before.owned - before.pending - todo then At(live, s) == At(e, s)
          else At(live, s) == At(before.live, s)
        decreases todo
      {
        var s :| s in todo;
        live := if s in e then live[s := e[s]] else live - {s};
        todo := todo - {s};
      }
      SameEntries(live, Refreshed(before, f, rt).live);
      globals := map x | x in globals.Keys + g.Keys
        && (if x in ownedGlobals && x !in pendingGlobals && x in g then true else x in globals) ::
        if x in ownedGlobals && x !in pendingGlobals && x in g then g[x] else globals[x];
    }

    /** The gate measured, unless the agent's beta has moved since. */
    method SetGate(c: Result, rt: Runtime) returns (stood: bool)
      modifies this
      ensures stood == GateStands(old(State()), c, rt) && State() == WithGate(old(State()), c, rt)
      ensures Owns(old(State())) ==> Applied(old(State()), Missing, c, rt, State())
    {
      if Owns(State()) {
        GateApplies(State(), Missing, c, rt);
      }
      stood := GateStands(State(), c, rt);
      if stood {
        live := live[Slot(Gates, c.agent) := c.gate.value];
        RecordChange(c.agent, {Gates});
        globals := globals[Signal := c.signal];
        ownedGlobals, pendingGlobals := ownedGlobals + {Signal}, pendingGlobals + {Signal};
        assert (set a | a in {Gates} :: Slot(a, c.agent)) == {Slot(Gates, c.agent)};
      }
    }

    /** The change of precision, adopted once it is on disk. */
    method Adopt(c: Result, unpaired: bool)
      modifies this
      ensures State() == Adopted(old(State()).(pending := {}, pendingGlobals := {}), c, unpaired)
    {
      pending, pendingGlobals := {}, {};
      if !unpaired && !c.change.Current? {
        live := if c.change.Clear? then live - {Slot(Betas, c.agent)} else live[Slot(Betas, c.agent) := c.change.beta];
        owned := owned + {Slot(Betas, c.agent)};
      }
    }

    /** A calibration's write, from the read to the rename. */
    method WriteCalibration(file: SidecarFile, c: Result, rt: Runtime, fate: Fate, now: int) returns (persisted: bool)
      modifies this, file
      ensures Outcome(State(), file.content) == Wrote(old(State()), old(file.content), c, rt, fate, now)
      ensures persisted == (MayReplace(old(file.content), fate) && fate.landed)
      ensures Owns(old(State())) && persisted ==> Calibrated(old(State()), old(file.content), c, rt, now, State(), file.content)
      ensures !persisted ==> file.content == old(file.content)
      ensures Owns(old(State())) && !persisted ==>
        Applied(old(State()), if MayReplace(file.content, fate) then file.content else Missing, c, rt, State())
    {
      var f := file.content;
      if Owns(State()) {
        WriteReported(State(), f, c, rt, fate, now);
      }
      if MayReplace(f, fate) {
        RefreshUnchanged(f, rt);
      }
      var stood := SetGate(c, rt);
      if !MayReplace(f, fate) || !fate.landed {
        return false;
      }
      var payload := PayloadOf(State(), f, c, rt, stood, now);
      var unpaired := Unpaired(State(), f, c, rt, stood);
      Adopt(c, unpaired);
      file.content := Kept(payload);
      return true;
    }

    /** Drop an agent's calibration from memory and from the file. */
    method PurgeAgent(file: SidecarFile, agent: Agent, fate: Fate) returns (removed: bool)
      modifies this, file
      ensures Outcome(State(), file.content) == Purged(old(State()), old(file.content), agent, fate)
      ensures removed <==>
        || old(live.Keys) * SlotsOf(agent) != {}
        || (fate.locked && old(file.content).Kept? && old(file.content).payload.entries.Keys * SlotsOf(agent) != {})
    {
      removed := live.Keys * SlotsOf(agent) != {};
      live := live - SlotsOf(agent);
      owned, pending := owned + SlotsOf(agent), pending + SlotsOf(agent);
      if !fate.locked || !file.content.Kept? {
        return;
      }
      var f := file.content.payload;
      removed := removed || f.entries.Keys * SlotsOf(agent) != {};
      if !removed || !fate.landed {
        return;
      }
      file.content := Kept(f.(entries := f.entries - SlotsOf(agent)));
      pending := pending - SlotsOf(agent);
    }
  }

  lemma {:induction false} SameEntries(a: map<Slot, real>, b: map<Slot, real>)
    requires forall s :: At(a, s) == At(b, s)
    ensures a == b
  {
    assert forall s :: s in a <==> At(a, s).Some?;
    assert forall s :: s in b <==> At(b, s).Some?;
    assert a.Keys == b.Keys;
    assert forall s | s in a :: a[s] == At(a, s).value == b[s];
  }
}
