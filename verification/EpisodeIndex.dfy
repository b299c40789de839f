/** Where an agent's episode summaries live (cpersona/admin_handlers.py,
    `_EpisodeSummaryIndex`): a digest index in front of the SQL probe, for any digest
    function, collisions included. */
module EpisodeIndex {
  import opened Common
  import opened AgentRows

  predicate IsEpisode(rows: Table, id: nat, agent: Agent, project: Value, channel: Value, summary: Value) {
    id in rows && rows[id].Episode? && BySummary(agent, project, channel, summary) in KeysOf(rows[id])
  }

  /** In columns. */
  lemma {:induction false} IsEpisodeWhen(rows: Table, id: nat, agent: Agent, project: Value, channel: Value, summary: Value)
    ensures IsEpisode(rows, id, agent, project, channel, summary) <==>
      && id in rows && rows[id].Episode? && rows[id].agent == agent
      && rows[id].project == project && rows[id].channel == channel && rows[id].summary == summary
  {
  }

  ghost predicate HasEpisode(rows: Table, agent: Agent, project: Value, channel: Value, summary: Value) {
    exists id :: IsEpisode(rows, id, agent, project, channel, summary)
  }

  /** Only text has a digest. */
  function KeyOf(digest: (Value, Value, Value) -> nat, project: Value, channel: Value, summary: Value): Option<nat> {
    if IsText(project) && IsText(channel) && IsText(summary) then Some(digest(project, channel, summary))
    else None
  }

  function KeyOfRow(digest: (Value, Value, Value) -> nat, row: Row): Option<nat>
    requires row.Episode?
  {
    KeyOf(digest, row.project, row.channel, row.summary)
  }

  class SummaryIndex {
    const digest: (Value, Value, Value) -> nat
    var agents: map<Agent, map<nat, nat>>
    var untyped: set<Agent>

    /** An agent's index stands for its episodes: each has a digest, and the digest is known;
        or the agent has a row no digest stands for. */
    ghost predicate Stands(rows: Table)
      reads this
    {
      forall a, id | a in agents && a !in untyped && id in rows && rows[id].Episode? && rows[id].agent == a ::
        KeyOfRow(digest, rows[id]).Some? && KeyOfRow(digest, rows[id]).value in agents[a]
    }

    constructor (d: (Value, Value, Value) -> nat)
      ensures digest == d && agents == map[] && untyped == {}
    {
      digest, agents, untyped := d, map[], {};
    }

    /** One row of a page. */
    method ReadRow(rows: Table, a: Agent, id: nat, keys: map<nat, nat>) returns (now: map<nat, nat>)
      requires id in rows && rows[id].Episode?
      modifies this`untyped
      ensures forall k | k in keys :: k in now
      ensures untyped == old(untyped) || untyped == old(untyped) + {a}
      ensures KeyOfRow(digest, rows[id]).None? ==> a in untyped
      ensures KeyOfRow(digest, rows[id]).Some? ==> KeyOfRow(digest, rows[id]).value in now
    {
      var key := KeyOfRow(digest, rows[id]);
      now := keys;
      if key.None? {
        untyped := untyped + {a};
      } else if key.value !in now {
        now := now[key.value := id];
      }
    }

    /** Every id read so far is in the index, or the agent cannot be indexed. */
    ghost predicate Indexed(rows: Table, a: Agent, keys: map<nat, nat>, read: seq<nat>, untyped: set<Agent>) {
      a in untyped || forall id | id in read ::
        id in rows && rows[id].Episode? && KeyOfRow(digest, rows[id]).Some? && KeyOfRow(digest, rows[id]).value in keys
    }

    method ReadPage(rows: Table, a: Agent, keys: map<nat, nat>, page: seq<nat>, ghost read: seq<nat>) returns (now: map<nat, nat>)
      requires forall i | 0 <= i < |page| :: page[i] in rows && rows[page[i]].Episode?
      requires Indexed(rows, a, keys, read, untyped)
      modifies this`untyped
      ensures untyped == old(untyped) || untyped == old(untyped) + {a}
      ensures Indexed(rows, a, now, read + page, untyped)
    {
      now := keys;
      var i := 0;
      while i < |page|
        invariant 0 <= i <= |page|
        invariant untyped == old(untyped) || untyped == old(untyped) + {a}
        invariant Indexed(rows, a, now, read + page[..i], untyped)
      {
        now := ReadRow(rows, a, page[i], now);
        assert page[..i+1] == page[..i] + [page[i]];
        i := i + 1;
      }
      assert page[..i] == page;
    }

    /** An agent's episodes, read once, in keyset pages. */
    method KeysFor(rows: Table, last: nat, a: Agent, limit: nat) returns (keys: map<nat, nat>)
      requires limit > 0 && Numbered(rows, last) && (forall id | id in rows :: rows[id].Episode?) && Stands(rows)
      modifies this
      ensures Stands(rows) && a in agents && keys == agents[a]
    {
      if a in agents {
        return agents[a];
      }
      keys := map[];
      var ids := IdsOf(rows, a);
      var after := 0;
      while true
        invariant after <= last && agents == old(agents)
        invariant untyped == old(untyped) || untyped == old(untyped) + {a}
        invariant Indexed(rows, a, keys, Listing(ids, after), untyped)
        decreases last - after
      {
        PageContinues(ids, after, last, limit);
        var page := Page(ids, after, last, limit);
        if page == [] {
          break;
        }
        keys := ReadPage(rows, a, keys, page, Listing(ids, after));
        after := page[|page|-1];
      }
      AllIndexed(rows, last, a, keys);
      agents := agents[a := keys];
    }

    lemma {:induction false} AllIndexed(rows: Table, last: nat, a: Agent, keys: map<nat, nat>)
      requires Numbered(rows, last) && Indexed(rows, a, keys, Listing(IdsOf(rows, a), last), untyped)
      ensures a in untyped || forall id | id in rows && rows[id].agent == a ::
        rows[id].Episode? && KeyOfRow(digest, rows[id]).Some? && KeyOfRow(digest, rows[id]).value in keys
    {
      ListingIsExact(IdsOf(rows, a), last);
    }

    /** The probe SQL answers by itself. */
    method Probe(rows: Table, last: nat, a: Agent, project: Value, channel: Value, summary: Value) returns (r: Option<nat>)
      requires Numbered(rows, last)
      ensures r.Some? ==> IsEpisode(rows, r.value, a, project, channel, summary)
      ensures r.None? ==> !HasEpisode(rows, a, project, channel, summary)
    {
      var id := 0;
      while id <= last
        invariant forall i | 0 <= i < id :: !IsEpisode(rows, i, a, project, channel, summary)
      {
        if IsEpisode(rows, id, a, project, channel, summary) {
          return Some(id);
        }
        id := id + 1;
      }
      return None;
    }

    /** An episode the agent holds with this summary in this bucket: an id exactly when the
        table has one. */
    method Find(rows: Table, last: nat, a: Agent, project: Value, channel: Value, summary: Value, limit: nat) returns (r: Option<nat>)
      requires limit > 0 && Numbered(rows, last) && (forall id | id in rows :: rows[id].Episode?) && Stands(rows)
      modifies this
      ensures Stands(rows)
      ensures r.Some? ==> IsEpisode(rows, r.value, a, project, channel, summary)
      ensures r.None? <==> !HasEpisode(rows, a, project, channel, summary)
    {
      var keys := KeysFor(rows, last, a, limit);
      var key := KeyOf(digest, project, channel, summary);
      if key.None? || a in untyped {
        r := Probe(rows, last, a, project, channel, summary);
        return;
      }
      if key.value !in keys {
        return None;
      }
      if IsEpisode(rows, keys[key.value], a, project, channel, summary) {
        return Some(keys[key.value]);
      }
      r := Probe(rows, last, a, project, channel, summary);
    }

    /** Record an episode this run inserted: the index goes on standing for the table. */
    method Add(a: Agent, project: Value, channel: Value, summary: Value, id: nat, ghost rows: Table, ghost rest: nat)
      requires Stands(rows) && id !in rows
      modifies this
      ensures Stands(rows[id := Episode(a, project, channel, summary, rest)])
    {
      if a !in agents {
        return;
      }
      var key := KeyOf(digest, project, channel, summary);
      if key.None? {
        untyped := untyped + {a};
      } else if key.value !in agents[a] {
        var known: map<nat, nat> := agents[a];
        known := known[key.value := id];
        agents := agents[a := known];
      }
    }
  }
}
