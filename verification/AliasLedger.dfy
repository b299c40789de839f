/** The alias ledger (cpersona/aliases.py): server processes that mint a name for each
    signed-in person into one file, each following the file through a fingerprint. */
module AliasLedger {
  import opened Common

  datatype Issuer = Issuer(url: string)
  datatype Subject = Subject(text: string)
  datatype Alias = Alias(hex: nat)

  /** issuer to subject to alias. */
  type Rows = map<Issuer, map<Subject, Alias>>

  function Lookup(rows: Rows, i: Issuer, s: Subject): Option<Alias> {
    if i in rows && s in rows[i] then Some(rows[i][s]) else None
  }

  /** `rows.setdefault(i, {})[s] = a` */
  function Enter(rows: Rows, i: Issuer, s: Subject, a: Alias): Rows {
    rows[i := (if i in rows then rows[i] else map[])[s := a]]
  }

  /** The rollback: the entry goes, and its issuer with it when nothing else is left. */
  function Forget(rows: Rows, i: Issuer, s: Subject): Rows {
    if i !in rows then rows
    else if rows[i] - {s} == map[] then rows - {i}
    else rows[i := rows[i] - {s}]
  }

  function Taken(rows: Rows): set<Alias> {
    set i, s | i in rows && s in rows[i] :: rows[i][s]
  }

  /** The same answers, whatever empty issuers are kept. */
  ghost predicate SameRows(a: Rows, b: Rows) {
    forall i, s :: Lookup(a, i, s) == Lookup(b, i, s)
  }

  ghost predicate Within(a: Rows, b: Rows) {
    forall i, s :: Lookup(a, i, s).Some? ==> Lookup(b, i, s) == Lookup(a, i, s)
  }

  lemma {:induction false} RollbackRestores(rows: Rows, i: Issuer, s: Subject, a: Alias)
    requires Lookup(rows, i, s).None?
    ensures SameRows(Forget(Enter(rows, i, s, a), i, s), rows)
    ensures Taken(Forget(Enter(rows, i, s, a), i, s)) == Taken(rows)
  {
    var after := Forget(Enter(rows, i, s, a), i, s);
    forall i', s' ensures Lookup(after, i', s') == Lookup(rows, i', s') {
      if i' == i && s' != s && i in rows && s' in rows[i] {
        assert s' in Enter(rows, i, s, a)[i] - {s};
      }
    }
    TakenIsLookups(after);
    TakenIsLookups(rows);
  }

  lemma {:induction false} TakenIsLookups(rows: Rows)
    ensures forall a :: a in Taken(rows) <==> exists i, s :: Lookup(rows, i, s) == Some(a)
  {
    forall a ensures a in Taken(rows) <==> exists i, s :: Lookup(rows, i, s) == Some(a) {
      if a in Taken(rows) {
        var i, s :| i in rows && s in rows[i] && rows[i][s] == a;
        assert Lookup(rows, i, s) == Some(a);
      }
    }
  }

  // ---- the file and the processes --------------------------------------------------------

  /** What the path holds. */
  datatype Content = Missing | Broken | Held(rows: Rows)

  /** The file, with its fingerprint: a file renamed into place has a new one. */
  datatype File = File(content: Content, stamp: nat)

  /** Whether a process is between calls, or has taken the file's fingerprint and not yet
      read it: at startup, or within a read. */
  datatype Phase = Idle | Starting(stat: nat) | Reading(stat: nat)

  /** A process: its rows, and the fingerprint it remembers for them, if it trusts one. */
  datatype Proc = Proc(rows: Rows, seen: Option<nat>, phase: Phase)

  /** How writing the file ends: it lands; it fails with the old file in place; or it is
      interrupted with the new file in place and its fingerprint not remembered. */
  datatype Persisted = Written | NotReplaced | Interrupted

  /** The first half of a read: compare fingerprints. */
  function Stated(p: Proc, f: File): Proc {
    if f.content.Missing? || p.seen == Some(f.stamp) then p
    else p.(phase := Reading(f.stamp))
  }

  /** The second half: adopt the rows, or keep the old ones when the file does not read. */
  function Loaded(p: Proc, stat: nat, f: File, trusted: bool): Proc {
    if f.content.Held? then Proc(f.content.rows, if trusted then Some(stat) else None, Idle)
    else p.(phase := Idle)
  }

  /** A strict read, which refuses a file that does not parse. */
  function StrictRefresh(p: Proc, f: File, trusted: bool): Result<Proc> {
    if f.content.Missing? || p.seen == Some(f.stamp) then Ok(p)
    else if f.content.Broken? then Refused
    else Ok(Proc(f.content.rows, if trusted then Some(f.stamp) else None, p.phase))
  }

  datatype Issuance = Issuance(proc: Proc, file: File, answer: Result<(Alias, bool)>)

  /** The re-read, mint and persist under the lock. */
  function Issued(p: Proc, f: File, i: Issuer, s: Subject, minted: Alias, trusted: bool, end: Persisted): Issuance {
    match StrictRefresh(p, f, trusted)
    case Refused => Issuance(p, f, Refused)
    case Ok(q) =>
      match Lookup(q.rows, i, s)
      case Some(existing) => Issuance(q, f, Ok((existing, false)))
      case None =>
        var rows := Enter(q.rows, i, s, minted);
        match end
        case Written =>
          Issuance(q.(rows := rows, seen := Some(f.stamp + 1)), File(Held(rows), f.stamp + 1), Ok((minted, true)))
        case NotReplaced =>
          Issuance(q.(rows := Forget(rows, i, s)), f, Refused)
        case Interrupted =>
          Issuance(q.(rows := Forget(rows, i, s)), File(Held(rows), f.stamp + 1), Refused)
  }

  // ---- runs ---------------------------------------------------------------------------------

  datatype World = World(file: File, procs: map<nat, Proc>)

  /** One step of one process. Processes interleave freely; only the span under the lock is
      one step, because every server process takes the lock for it. */
  datatype Event =
    | Start(p: nat)
    | Stat(p: nat)
    | Load(p: nat, trusted: bool)
    | Issue(p: nat, i: Issuer, s: Subject, minted: Alias, trusted: bool, end: Persisted)
    | Stop(p: nat)

  function Step(w: World, e: Event): World {
    match e
    case Start(p) =>
      if p in w.procs then w
      else w.(procs := w.procs[p := Proc(map[], None,
        if w.file.content.Missing? then Idle else Starting(w.file.stamp))])
    case Stat(p) =>
      if p in w.procs && w.procs[p].phase.Idle? then
        w.(procs := w.procs[p := Stated(w.procs[p], w.file)])
      else w
    case Load(p, trusted) =>
      if p !in w.procs || w.procs[p].phase.Idle? then w
      else if w.procs[p].phase.Starting? && !w.file.content.Held? then
        w.(procs := w.procs - {p})
      else
        w.(procs := w.procs[p := Loaded(w.procs[p], w.procs[p].phase.stat, w.file, trusted)])
    case Issue(p, i, s, minted, trusted, end) =>
      if p in w.procs && w.procs[p].phase.Idle? then
        var r := Issued(w.procs[p], w.file, i, s, minted, trusted, end);
        World(r.file, w.procs[p := r.proc])
      else w
    case Stop(p) => w.(procs := w.procs - {p})
  }

  /** The minted name is one no row has: the code redraws until it is. */
  predicate Mints(w: World, e: Event) {
    e.Issue? && e.p in w.procs ==>
      match StrictRefresh(w.procs[e.p], w.file, e.trusted)
      case Ok(q) => e.minted !in Taken(q.rows)
      case Refused => true
  }

  ghost predicate Follows(run: seq<World>, events: seq<Event>, n: int)
    requires 0 <= n < |events| < |run|
  {
    Mints(run[n], events[n]) && run[n+1] == Step(run[n], events[n])
  }

  /** Any run with no operator edit: any file to begin with, and no process yet. */
  ghost predicate IsRun(run: seq<World>, events: seq<Event>) {
    && |run| == |events| + 1
    && run[0].procs == map[]
    && (forall n | 0 <= n < |events| :: Follows(run, events, n))
  }

  function FileRows(f: File): Rows {
    if f.content.Held? then f.content.rows else map[]
  }

  /** A process never holds a row the file lacks, and where it remembers the file's
      fingerprint it holds the file's rows. */
  ghost predicate Agrees(p: Proc, f: File) {
    && Within(p.rows, FileRows(f))
    && (p.seen.Some? ==> p.seen.value <= f.stamp)
    && (p.seen == Some(f.stamp) ==> SameRows(p.rows, FileRows(f)))
    && (!p.phase.Idle? ==> p.phase.stat <= f.stamp)
    && (p.phase.Starting? ==> p.seen.None?)
    && (f.content.Broken? ==> p.phase.Starting?)
    && (f.content.Missing? ==> p.seen.None? && p.phase.Idle?)
  }

  ghost predicate Consistent(w: World) {
    forall p | p in w.procs :: Agrees(w.procs[p], w.file)
  }

  lemma {:induction false} EnteredWithin(rows: Rows, i: Issuer, s: Subject, a: Alias)
    requires Lookup(rows, i, s).None?
    ensures Within(rows, Enter(rows, i, s, a))
    ensures Lookup(Enter(rows, i, s, a), i, s) == Some(a)
    ensures forall i', s' | (i', s') != (i, s) :: Lookup(Enter(rows, i, s, a), i', s') == Lookup(rows, i', s')
  {
  }

  /** A strict re-read leaves a process with exactly the file's rows. */
  lemma {:induction false} StrictReadIsCurrent(p: Proc, f: File, trusted: bool)
    requires Agrees(p, f) && p.phase.Idle?
    ensures StrictRefresh(p, f, trusted).Ok?
    ensures var q := StrictRefresh(p, f, trusted).value; Agrees(q, f) && q.phase.Idle? && SameRows(q.rows, FileRows(f))
  {
  }

  /** What one issuance does to the process and the file. */
  lemma {:induction false} IssuedKeeps(p: Proc, f: File, i: Issuer, s: Subject, minted: Alias, trusted: bool, end: Persisted)
    requires Agrees(p, f) && p.phase.Idle?
    ensures var r := Issued(p, f, i, s, minted, trusted, end);
      && Agrees(r.proc, r.file) && Within(FileRows(f), FileRows(r.file))
      && (r.file == f || (r.file.stamp > f.stamp && r.file.content.Held?))
      && r.proc.phase.Idle?
      && (r.answer.Ok? ==>
           (Lookup(FileRows(r.file), i, s) == Some(r.answer.value.0) && SameRows(r.proc.rows, FileRows(r.file))))
      && (end.Written? ==> r.answer.Ok?)
  {
    StrictReadIsCurrent(p, f, trusted);
    var q := StrictRefresh(p, f, trusted).value;
    if Lookup(q.rows, i, s).None? {
      EnteredWithin(q.rows, i, s, minted);
      RollbackRestores(q.rows, i, s, minted);
    }
  }

  lemma {:induction false} StepKeeps(w: World, e: Event)
    requires Consistent(w)
    ensures Consistent(Step(w, e))
    ensures Within(FileRows(w.file), FileRows(Step(w, e).file))
    ensures w.file.stamp <= Step(w, e).file.stamp
  {
    if e.Issue? && e.p in w.procs && w.procs[e.p].phase.Idle? {
      IssuedKeeps(w.procs[e.p], w.file, e.i, e.s, e.minted, e.trusted, e.end);
    }
  }

  lemma {:induction false} RunKeeps(run: seq<World>, events: seq<Event>, n: nat)
    requires IsRun(run, events) && n < |run|
    ensures Consistent(run[n])
  {
    if n > 0 {
      RunKeeps(run, events, n - 1);
      assert Follows(run, events, n - 1);
      StepKeeps(run[n-1], events[n-1]);
    }
  }

  /** The ledger's rows only grow. */
  lemma {:induction false} RowsOnlyGrow(run: seq<World>, events: seq<Event>, m: nat, n: nat)
    requires IsRun(run, events) && m <= n < |run|
    ensures Within(FileRows(run[m].file), FileRows(run[n].file))
    decreases n
  {
    if m < n {
      RowsOnlyGrow(run, events, m, n - 1);
      assert Follows(run, events, n - 1);
      RunKeeps(run, events, n - 1);
      StepKeeps(run[n-1], events[n-1]);
    }
  }

  /** No process ever holds a row the file lacks, whatever writes failed or were cut short. */
  lemma {:induction false} NoRowTheFileLacks(run: seq<World>, events: seq<Event>, n: nat, p: nat)
    requires IsRun(run, events) && n < |run| && p in run[n].procs
    ensures Within(run[n].procs[p].rows, FileRows(run[n].file))
  {
    RunKeeps(run, events, n);
  }

  /** What the call completing at a step answers for a pair: a read that needs no load, a
      load, or an issuance that is not refused. */
  function Answer(w: World, e: Event, i: Issuer, s: Subject): Option<Option<Alias>> {
    match e
    case Stat(p) =>
      if p in w.procs && w.procs[p].phase.Idle? && Stated(w.procs[p], w.file).phase.Idle? then
        Some(Lookup(w.procs[p].rows, i, s))
      else None
    case Load(p, trusted) =>
      if p in w.procs && w.procs[p].phase.Reading? then
        Some(Lookup(Loaded(w.procs[p], w.procs[p].phase.stat, w.file, trusted).rows, i, s))
      else None
    case Issue(p, i', s', minted, trusted, end) =>
      if p in w.procs && w.procs[p].phase.Idle? && i' == i && s' == s then
        match Issued(w.procs[p], w.file, i, s, minted, trusted, end).answer
        case Ok(a) => Some(Some(a.0))
        case Refused => None
      else None
    case _ => None
  }

  /** Every answer is the file's own row at the moment it is given. */
  lemma {:induction false} AnswersAreCurrent(run: seq<World>, events: seq<Event>, n: nat, i: Issuer, s: Subject)
    requires IsRun(run, events) && n < |events|
    requires Answer(run[n], events[n], i, s).Some?
    ensures Answer(run[n], events[n], i, s).value == Lookup(FileRows(run[n+1].file), i, s)
  {
    var w, e := run[n], events[n];
    assert Follows(run, events, n);
    RunKeeps(run, events, n);
    if e.Issue? {
      IssuedKeeps(w.procs[e.p], w.file, i, s, e.minted, e.trusted, e.end);
    }
  }

  /** An issuance for a pair the file records is never refused, whatever the write would have
      come to: it answers the recorded alias and leaves the file as it was. */
  lemma {:induction false} RecordedIsAnswered(run: seq<World>, events: seq<Event>, n: nat, i: Issuer, s: Subject)
    requires IsRun(run, events) && n < |events| && Lookup(FileRows(run[n].file), i, s).Some?
    requires events[n].Issue? && events[n].i == i && events[n].s == s
    requires events[n].p in run[n].procs && run[n].procs[events[n].p].phase.Idle?
    ensures Answer(run[n], events[n], i, s) == Some(Lookup(FileRows(run[n].file), i, s))
    ensures run[n+1].file == run[n].file
  {
    RunKeeps(run, events, n);
    assert Follows(run, events, n);
    StrictReadIsCurrent(run[n].procs[events[n].p], run[n].file, events[n].trusted);
  }

  /** So no process is refused the alias of a pair that any process was once given. */
  lemma {:induction false} NeverRefusedAgain(run: seq<World>, events: seq<Event>, m: nat, n: nat,
                                             i: Issuer, s: Subject, a: Alias)
    requires IsRun(run, events) && m < n < |events| && Answer(run[m], events[m], i, s) == Some(Some(a))
    requires events[n].Issue? && events[n].i == i && events[n].s == s
    requires events[n].p in run[n].procs && run[n].procs[events[n].p].phase.Idle?
    ensures Answer(run[n], events[n], i, s) == Some(Some(a))
  {
    AnswersAreCurrent(run, events, m, i, s);
    RowsOnlyGrow(run, events, m + 1, n);
    RecordedIsAnswered(run, events, n, i, s);
  }

  /** A pair once answered with an alias resolves to it in every process from then on. */
  lemma {:induction false} OnceIssuedStays(run: seq<World>, events: seq<Event>, m: nat, n: nat,
                                           i: Issuer, s: Subject, a: Alias)
    requires IsRun(run, events) && m < n < |events|
    requires Answer(run[m], events[m], i, s) == Some(Some(a))
    requires Answer(run[n], events[n], i, s).Some?
    ensures Answer(run[n], events[n], i, s) == Some(Some(a))
  {
    AnswersAreCurrent(run, events, m, i, s);
    AnswersAreCurrent(run, events, n, i, s);
    RowsOnlyGrow(run, events, m + 1, n + 1);
  }

  /** Two pairs share an alias only where the operator had linked them before the run. */
  lemma {:induction false} NoSharing(run: seq<World>, events: seq<Event>, n: nat,
                                     i: Issuer, s: Subject, i': Issuer, s': Subject)
    requires IsRun(run, events) && n < |run| && (i, s) != (i', s')
    requires Lookup(FileRows(run[n].file), i, s).Some?
    requires Lookup(FileRows(run[n].file), i, s) == Lookup(FileRows(run[n].file), i', s')
    ensures Lookup(FileRows(run[0].file), i, s) == Lookup(FileRows(run[n].file), i, s)
    ensures Lookup(FileRows(run[0].file), i', s') == Lookup(FileRows(run[n].file), i, s)
  {
    if n > 0 {
      var w, e := run[n-1], events[n-1];
      assert Follows(run, events, n - 1);
      RunKeeps(run, events, n - 1);
      if e.Issue? && e.p in w.procs && w.procs[e.p].phase.Idle? {
        FreshIsFresh(w.procs[e.p], w.file, e, i, s, i', s');
      }
      NoSharing(run, events, n - 1, i, s, i', s');
    }
  }

  /** An issuance gives no pair an alias another pair has. */
  lemma {:induction false} FreshIsFresh(p: Proc, f: File, e: Event, i: Issuer, s: Subject, i': Issuer, s': Subject)
    requires e.Issue? && Agrees(p, f) && p.phase.Idle? && (i, s) != (i', s')
    requires var q := StrictRefresh(p, f, e.trusted); q.Ok? ==> e.minted !in Taken(q.value.rows)
    requires var after := FileRows(Issued(p, f, e.i, e.s, e.minted, e.trusted, e.end).file);
      Lookup(after, i, s).Some? && Lookup(after, i, s) == Lookup(after, i', s')
    ensures var after := FileRows(Issued(p, f, e.i, e.s, e.minted, e.trusted, e.end).file);
      Lookup(FileRows(f), i, s) == Lookup(after, i, s) && Lookup(FileRows(f), i', s') == Lookup(after, i, s)
  {
    StrictReadIsCurrent(p, f, e.trusted);
    var q := StrictRefresh(p, f, e.trusted).value;
    TakenIsLookups(q.rows);
    if Lookup(q.rows, e.i, e.s).None? {
      EnteredWithin(q.rows, e.i, e.s, e.minted);
    }
  }

  // ---- the code -----------------------------------------------------------------------------

  /** The ledger file. */
  class LedgerFile {
    var content: Content
    var stamp: nat

    function Now(): File
      reads this
    {
      File(content, stamp)
    }

    /** A temporary file renamed into place. */
    method Replace(rows: Rows)
      modifies this
      ensures Now() == File(Held(rows), old(stamp) + 1)
    {
      content, stamp := Held(rows), stamp + 1;
    }
  }

  lemma {:induction false} Largest(s: set<Alias>) returns (n: nat)
    ensures forall a | a in s :: a.hex < n
  {
    if s == {} {
      n := 0;
    } else {
      var a :| a in s;
      n := Largest(s - {a});
      n := if n <= a.hex then a.hex + 1 else n;
    }
  }

  /** A process's ledger. */
  class Ledger {
    const file: LedgerFile
    var aliases: Rows
    var seen: Option<nat>
    var issued: Option<set<Alias>>

    function State(): Proc
      reads this
    {
      Proc(aliases, seen, Idle)
    }

    /** The cached alias set is the rows'. */
    predicate Valid()
      reads this
    {
      issued.Some? ==> issued.value == Taken(aliases)
    }

    constructor (at: LedgerFile)
      ensures file == at && Valid() && State() == Proc(map[], None, Idle)
    {
      file, aliases, seen, issued := at, map[], None, None;
    }

    /** Re-read the file if it changed since this process last read or wrote it. */
    method Refresh(strict: bool, trusted: bool) returns (ok: bool)
      requires Valid()
      modifies this
      ensures Valid()
      ensures strict && ok ==> StrictRefresh(old(State()), file.Now(), trusted) == Ok(State())
      ensures strict && !ok ==> StrictRefresh(old(State()), file.Now(), trusted).Refused? && State() == old(State())
      ensures !strict ==> ok && State() == var p := Stated(old(State()), file.Now());
        if p.phase.Idle? then p else Loaded(p, p.phase.stat, file.Now(), trusted)
    {
      if file.content.Missing? || Some(file.stamp) == seen {
        return true;
      }
      if file.content.Broken? {
        return !strict;
      }
      aliases := file.content.rows;
      seen := if trusted then Some(file.stamp) else None;
      issued := None;
      return true;
    }

    /** The alias of a pair as the file now records it. */
    method Peek(i: Issuer, s: Subject, trusted: bool) returns (alias: Option<Alias>)
      requires Valid()
      modifies this
      ensures Valid()
      ensures State() == var p := Stated(old(State()), file.Now());
        if p.phase.Idle? then p else Loaded(p, p.phase.stat, file.Now(), trusted)
      ensures alias == Lookup(State().rows, i, s)
    {
      var _ := Refresh(false, trusted);
      alias := Lookup(aliases, i, s);
    }

    /** Every alias the ledger records. */
    method IssuedAliases(trusted: bool) returns (all: set<Alias>)
      requires Valid()
      modifies this
      ensures Valid() && all == Taken(State().rows)
      ensures State() == var p := Stated(old(State()), file.Now());
        if p.phase.Idle? then p else Loaded(p, p.phase.stat, file.Now(), trusted)
    {
      var _ := Refresh(false, trusted);
      if issued.None? {
        issued := Some(Taken(aliases));
      }
      all := issued.value;
    }

    /** Write the whole ledger and remember its fingerprint. */
    method Persist(end: Persisted) returns (ok: bool)
      modifies file, this`seen
      ensures ok == end.Written?
      ensures file.Now() == if end.NotReplaced? then old(file.Now()) else File(Held(aliases), old(file.stamp) + 1)
      ensures seen == if ok then Some(file.stamp) else old(seen)
    {
      if end.NotReplaced? {
        return false;
      }
      file.Replace(aliases);
      if end.Interrupted? {
        return false;
      }
      seen := Some(file.stamp);
      return true;
    }

    /** The re-read, mint and persist; the lock is held. */
    method IssueLocked(i: Issuer, s: Subject, trusted: bool, end: Persisted)
        returns (answer: Result<(Alias, bool)>, ghost minted: Alias)
      requires Valid()
      modifies this, file
      ensures Valid()
      ensures Issued(old(State()), old(file.Now()), i, s, minted, trusted, end) == Issuance(State(), file.Now(), answer)
      ensures var q := StrictRefresh(old(State()), old(file.Now()), trusted); q.Ok? ==> minted !in Taken(q.value.rows)
    {
      var ok := Refresh(true, trusted);
      var n := Largest(Taken(aliases));
      minted := Alias(n);
      if !ok {
        return Refused, minted;
      }
      if i in aliases && s in aliases[i] {
        return Ok((aliases[i][s], false)), minted;
      }
      var alias: Alias :| alias !in Taken(aliases);
      minted := alias;
      ghost var read := aliases;
      aliases := Enter(aliases, i, s, alias);
      issued := None;
      var written := Persist(end);
      if !written {
        aliases := Forget(aliases, i, s);
        issued := None;
        return Refused, minted;
      }
      answer := Ok((alias, true));
    }

    /** The alias of this pair, minting one on first sight. The lock may be refused. */
    method ResolveOrIssue(i: Issuer, s: Subject, trusted: bool, locked: bool, end: Persisted)
        returns (answer: Result<(Alias, bool)>)
      requires Valid() && Agrees(State(), file.Now())
      modifies this, file
      ensures Valid() && Agrees(State(), file.Now())
      ensures Within(old(FileRows(file.Now())), FileRows(file.Now()))
      ensures answer.Ok? ==> Lookup(FileRows(file.Now()), i, s) == Some(answer.value.0)
      ensures answer.Ok? ==> (answer.value.1 <==> Lookup(old(FileRows(file.Now())), i, s).None?)
      ensures locked && end.Written? ==> answer.Ok?
      ensures !locked || end.NotReplaced? ==>
        (answer.Refused? <==> Lookup(old(FileRows(file.Now())), i, s).None?) && file.Now() == old(file.Now())
    {
      var existing := Peek(i, s, trusted);
      if existing.Some? {
        return Ok((existing.value, false));
      }
      if !locked {
        return Refused;
      }
      ghost var p := State();
      ghost var minted;
      answer, minted := IssueLocked(i, s, trusted, end);
      StrictReadIsCurrent(p, old(file.Now()), trusted);
      IssuedKeeps(p, old(file.Now()), i, s, minted, trusted, end);
    }
  }
}
