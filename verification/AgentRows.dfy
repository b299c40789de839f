/** The rows an agent's corpus is made of (cpersona/database.py), what makes two of them the
    same row, and reading a table page by page. */
module AgentRows {

  datatype Agent = Agent(name: string)

  /** A value of a NOT NULL column: text, or whatever else SQLite let in; the empty string
      and the empty blob have names of their own. */
  datatype Value = NoText | Text(chars: string) | NoBytes | Blob(bytes: string)

  predicate Empty(v: Value) {
    v.NoText? || v.NoBytes?
  }

  predicate IsText(v: Value) {
    v.NoText? || v.Text?
  }

  /** A row; `rest` stands for the columns no copy looks at. */
  datatype Row =
    | Memory(agent: Agent, project: Value, channel: Value, msgId: Value, content: Value, rest: nat)
    | Episode(agent: Agent, project: Value, channel: Value, summary: Value, rest: nat)
    | Profile(agent: Agent, user: Value, text: Value, rest: nat)

  type Table = map<nat, Row>

  /** What a copy probes the target for. */
  datatype Key =
    | ByMessage(agent: Agent, project: Value, msgId: Value)
    | ByContent(agent: Agent, project: Value, channel: Value, content: Value)
    | BySummary(agent: Agent, project: Value, channel: Value, summary: Value)
    | ByUser(agent: Agent, user: Value)

  /** A row's identities: any one of them held by another row makes it a duplicate. */
  function KeysOf(row: Row): set<Key> {
    match row
    case Memory(agent, project, channel, msgId, content, _) =>
      (if Empty(msgId) then {} else {ByMessage(agent, project, msgId)}) + {ByContent(agent, project, channel, content)}
    case Episode(agent, project, channel, summary, _) => {BySummary(agent, project, channel, summary)}
    case Profile(agent, user, _, _) => {ByUser(agent, user)}
  }

  function AKey(row: Row): (k: Key)
    ensures k in KeysOf(row)
  {
    match row
    case Memory(agent, project, channel, _, content, _) => ByContent(agent, project, channel, content)
    case Episode(agent, project, channel, summary, _) => BySummary(agent, project, channel, summary)
    case Profile(agent, user, _, _) => ByUser(agent, user)
  }

  /** A row with nothing to say, which no copy considers. */
  predicate Hollow(row: Row) {
    match row
    case Memory(_, _, _, _, content, _) => Empty(content)
    case Episode(_, _, _, summary, _) => Empty(summary)
    case Profile(_, _, text, _) => Empty(text)
  }

  // The same, column by column.

  /** One row says what another does, under an agent of its own. */
  predicate IsCopyFor(src: Row, copy: Row, agent: Agent) {
    copy.agent == agent &&
    match src
    case Memory(_, project, channel, msgId, content, rest) =>
      copy.Memory? && copy.project == project && copy.channel == channel && copy.msgId == msgId
      && copy.content == content && copy.rest == rest
    case Episode(_, project, channel, summary, rest) =>
      copy.Episode? && copy.project == project && copy.channel == channel && copy.summary == summary && copy.rest == rest
    case Profile(_, user, text, rest) => copy.Profile? && copy.user == user && copy.text == text && copy.rest == rest
  }

  /** Two rows of one agent count as the same: memories of one project by a message id, or by
      channel and content; episodes by project, channel and summary; profiles by user. */
  predicate Alike(a: Row, b: Row) {
    a.agent == b.agent
    && ((a.Memory? && b.Memory? && a.project == b.project
           && ((a.msgId == b.msgId && a.msgId != NoText && a.msgId != NoBytes)
               || (a.channel == b.channel && a.content == b.content)))
        || (a.Episode? && b.Episode? && a.project == b.project && a.channel == b.channel && a.summary == b.summary)
        || (a.Profile? && b.Profile? && a.user == b.user))
  }

  /** A row has something to say. */
  predicate Speaks(row: Row) {
    var said := if row.Memory? then row.content else if row.Episode? then row.summary else row.text;
    said != NoText && said != NoBytes
  }

  /** Two rows are alike exactly when some identity is both's. */
  lemma {:induction false} AlikeShare(a: Row, b: Row)
    ensures Alike(a, b) <==> exists k :: k in KeysOf(a) && k in KeysOf(b)
    ensures Speaks(a) <==> !Hollow(a)
  {
    if Alike(a, b) {
      var k := if a.Memory? && !(a.channel == b.channel && a.content == b.content) then ByMessage(a.agent, a.project, a.msgId)
               else AKey(a);
      assert k in KeysOf(a) && k in KeysOf(b);
    }
  }

  predicate Holds(rows: Table, k: Key) {
    exists id :: id in rows && k in KeysOf(rows[id])
  }

  /** AUTOINCREMENT ids run from 1 to the last one given. */
  ghost predicate Numbered(rows: Table, last: nat) {
    forall id | id in rows :: 0 < id <= last
  }

  function IdsOf(rows: Table, agent: Agent): set<nat> {
    set id | id in rows && rows[id].agent == agent
  }

  // ---- keyset paging -------------------------------------------------------------------------

  /** `WHERE id > after ORDER BY id LIMIT limit`, over the ids up to `top`. */
  function Page(ids: set<nat>, after: nat, top: nat, limit: nat): (page: seq<nat>)
    ensures |page| <= limit && forall i | 0 <= i < |page| :: after < page[i] <= top && page[i] in ids
    decreases if after <= top then top - after else 0
  {
    if limit == 0 || after >= top then []
    else if after + 1 in ids then [after + 1] + Page(ids, after + 1, top, limit - 1)
    else Page(ids, after + 1, top, limit)
  }

  /** The ids up to `n`, in order. */
  function Listing(ids: set<nat>, n: nat): (s: seq<nat>) {
    if n == 0 then [] else if n in ids then Listing(ids, n - 1) + [n] else Listing(ids, n - 1)
  }

  /** A listing names each id once. */
  lemma {:induction false} ListingIsExact(ids: set<nat>, n: nat)
    ensures forall id: nat :: id in Listing(ids, n) <==> id in ids && 0 < id <= n
    ensures forall i, j | 0 <= i < j < |Listing(ids, n)| :: Listing(ids, n)[i] < Listing(ids, n)[j]
  {
    if n > 0 {
      ListingIsExact(ids, n - 1);
      var before := Listing(ids, n - 1);
      forall i | 0 <= i < |before| ensures before[i] < n {
        assert before[i] in before;
      }
    }
  }

  lemma {:induction false} OneMore(before: seq<nat>, x: nat, tail: seq<nat>)
    ensures before + ([x] + tail) == (before + [x]) + tail
    ensures ([x] + tail)[|tail|] == if tail == [] then x else tail[|tail|-1]
  {
  }

  /** A page takes the listing up again where the last one left it. */
  lemma {:induction false} PageContinues(ids: set<nat>, after: nat, top: nat, limit: nat)
    requires limit > 0 && after <= top
    ensures var page := Page(ids, after, top, limit);
      && (page != [] ==>
           (after < page[|page|-1] <= top && Listing(ids, after) + page == Listing(ids, page[|page|-1])))
      && (page == [] ==> Listing(ids, after) == Listing(ids, top))
    decreases top - after
  {
    if after < top {
      var tail := Page(ids, after + 1, top, if after + 1 in ids then limit - 1 else limit);
      if tail != [] || after + 1 !in ids {
        PageContinues(ids, after + 1, top, if after + 1 in ids then limit - 1 else limit);
      }
      if after + 1 in ids {
        OneMore(Listing(ids, after), after + 1, tail);
      }
    }
  }
}
