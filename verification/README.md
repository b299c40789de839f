# CPersona, modelled and proved in Dafny

CPersona keeps an agent's memories, episodes and profiles in SQLite and surrounds
them with derived structures and bulk rewrites. Each of these has to agree with
something simpler: a file with the table it was built from, a bounded fusion with
the full one, a preview with the run it announces, a copied graph with the graph it
came from. The modules here model those parts and prove that they do agree, and,
where the code falls short, exactly when.

`dafny verify dfyconfig.toml` checks the whole project.

## What is modelled

**The block index and its change log.** `BlockClock` is the protocol: one clock row
(logging, generation, head, prune mark), the log of changed records, the schema
cookie, and the steps of any number of writers, builds and servers. A build is a
state of the run; its file may be read at any later one. `BlockMerge` is the chunked
merge of file rows and live rows under a share for each record and a cap on all,
`BlockFile` the file byte by byte, and `BlockRecall` puts them together: an answer
from the file is the direct read of the table (`BlockRows.IsRead`: what the reader may
see, in key order, each record's first rows, then the first rows of all). The chunk size, both
caps and the bound on live rows are parameters.

**Rank fusion.** `RankFusion` defines the fusion of two full rankings and proves that
the bounded working set gives the same first rows, ties included.

**The alias ledger.** `AliasLedger` is a file, any number of processes that come and
go, reads in two halves (compare fingerprints, then load), and persists that fail
before or after the rename. The class is one process's ledger; the run theorems are
about all of them together.

**The declared graph.** `Graph` (scoped names and aliases, tables and delete triggers),
`Declare`, `Carry`, `Rechannel`, `Follow`, `Undropped`, `Refusals`, `Elsewhere`, `Origins`,
`Outcome`, `Apart` and `FollowAll` (re-filed records take their declarations along: what one
agent's pass carries, drops, refuses, adds and deletes, and that it leaves every other's
alone), `Repoint`
(an equal record takes over; an agent's graph is dropped), `GraphRuns` (every reachable
graph) and `Neighbourhood` (the bounded breadth-first walk).

**Bulk moves of agents.** `AgentRows`, `EpisodeIndex`, `AgentCopy`, `AgentMerge` and
`ImportRun`: paged copies into the table being read, duplicate probes, previews, moves
and restores.

**Calibration.** `Calibration` is several processes over one sidecar file, with what
each owns and what each has yet to write; `Separation` is the threshold optimiser over
the reals.

**The rest.** `Packing` (greedy batches and the cache fill), `JsonStream` (the streaming
array reader) and `Guard` (the access guard).

A method that changes state is proved against a function of its old state; the lemmas
are about those functions, and what they come to is said in terms of the rows and values
themselves. `Common` holds the optional value and the refused result.

## Where the code and its description differ

- `follow_rechannelled` (cpersona/associations.py:768) indexes the parcel of the channel a
  relation lands in without making sure there is one. A relation between two records,
  anchored on a moved one, raises a missing key when no mention and no relation with an
  entity went to that channel first (`Rechannel.AnAnchoredPairStopsIt`). A pass completes
  exactly when no relation is in that position (`Rechannel.CompletesExactlyWhen`,
  `Follow.FollowAgent`), and the whole call exactly when no agent's is by what the store
  holds before it (`FollowAll.FollowRechannelled`).
- `follow_rechannelled` keeps every original when something could not be written
  (cpersona/associations.py:797-805). From a valid graph that happens for no agent that has
  a name (`Undropped.NeverLost`), and always for the one that has none
  (`Undropped.NamelessKeepsAll`).
- `iter_json_array` (benchmarks/longmemeval_history.py:20-23) tests for the opening bracket
  after one read, so an array that follows a first chunk of blanks is refused as no array
  (`JsonStream.IterJsonArray` states exactly when). A number cut by a chunk boundary is
  read as a shorter one: `[123]` in chunks of three gives 12 and then a missing separator
  (`JsonStream.ACutNumberIsMisread`). The reader gives the whole-text parse when no chunk
  ends inside a value where what is before the cut decodes, and only then where such a cut
  changes the value (`JsonStream.IteratedAgrees`; cutting 1.50 after 1.5 does not, and what it
  costs shows only in what comes next). Arrays, objects, strings and literals of RFC 8259
  say themselves where they end and cannot be cut so (`JsonStream.ChunkingDoesNotMatter`).
- The note on the working set (benchmarks/frozen_replay.py:40-45) argues from the ten best
  in-set rows having a dense vote. `RankFusion.BoundedTopIsExact` needs no such
  assumption: where fewer dense rows are admitted than the bound, the lexical order alone
  keeps the rest out, ties included.
- A global calibration axis that the file lacks is left out of a refresh
  (cpersona/admin_handlers.py:1694-1701), so a writer that owns it writes its live value
  over the absence; `Calibration.WriteLeavesGlobals` says which value the file then has.
- A purge drops its pending removal only when it removed something
  (cpersona/admin_handlers.py:1042-1065), against the comment there that a later calibration
  by another process must not be deleted again. Purge an agent with no entry in memory or
  in the file, let another process measure that agent and save, then write for any other
  agent from the first process: the saved entry is gone (`Calibration.AnIdlePurgeErases`).
  A per-agent entry survives exactly when no process writes while it holds an unsaved change
  to it that the file does not have (`Calibration.NoUpdateIsLost`).

## Model

The rows come in two parts. Those from `BlockClock.Forward` to `Guard.OmissionDemandsEveryone`
are the results. Those from `BlockClock.BlockStore.StartLog` on tie the code to what the
results are about: each says that a method computes, or changes its state as, the function
that specifies it, and the last few read a decision of the guard back as what its checks
amount to.

| member | source | states |
|---|---|---|
| `BlockClock.Forward` | cpersona/block_index.py:160-236 | in every run generation, head and schema cookie never fall, and the logging triggers are the same while the cookie is |
| `BlockClock.ChangeIsNoted` | cpersona/database.py:852-879 | while logging is on and every trigger is in place, a committed step that changes a row leaves a log entry for that row's record, numbered past the head before it |
| `BlockClock.DifferenceIsNoted` | cpersona/block_index.py:160-236 | over any run of writes, log switches, prunes and schema changes between a build's snapshot and a later state of the same generation and cookie, every row that differs from the snapshot has an entry past the file's position that is still there or pruned past |
| `BlockClock.AcceptedFileAnswers` | cpersona/block_index.py:636-651 | whenever the clock checks of a recall accept a file, every unchanged record's rows in the file are exactly the table's rows now, whatever builds overlapped |
| `BlockClock.PrunedBehindHead` | cpersona/block_index.py:216-236 | the prune mark never passes the head, in every run in which prunes come from published builds |
| `BlockClock.AcceptedExactlyWhile` | cpersona/block_index.py:641-651 | a file is accepted at a later state if and only if no step since its snapshot stopped the log, changed the schema, or pruned its generation past its position; writes, other generations' prunes and slower older builds never cost it, and nothing brings a refused file back |
| `BlockClock.KeptExactly` | cpersona/block_index.py:641-651 | one step leaves a file accepted exactly when it was accepted and the step is none of those |
| `BlockRows.OrderIsUnique` | cpersona/block_index.py:355-363 | a set of keys has one key-ordered listing, so any two reads in primary-key order agree |
| `BlockRows.DirectReadIs` | cpersona/block_index.py:355-363 | the direct read is, of the rows a reader may see (with bits, of a model asked for, of the agent; of the project or of none; of the channel or of none, an empty channel being all), those with fewer than `perParent` rows of their record before them, the first `examined` in key order |
| `BlockRows.MeasuresOneMore` | cpersona/block_index.py:761-773 | a row added keeps the answer measured: a row is flagged exactly when its bits have the file's width, there are as many slots of bits as rows flagged, and a flagged row's bits stand in the slot numbered by the flags before it |
| `BlockRows.MeasuresOnlyOne` | cpersona/block_index.py:527-552 | and so the flags and the bits of an answer are settled by its keys and the table |
| `BlockMerge.CodeOf` | cpersona/block_index.py:682 | the code of a label the table holds, or a code no row carries |
| `BlockMerge.BuildMask` | cpersona/block_index.py:681-708 | a file row passes the mask exactly when the filter admits its axes and its record has not changed |
| `BlockMerge.BisectLeft` | cpersona/block_index.py:716-718 | the live rows before the next chunk's first key are exactly those below the returned place |
| `BlockMerge.LexSortSorts` | cpersona/block_index.py:728-729 | a chunk with its live rows is sorted by key and loses or repeats none of them |
| `BlockMerge.RunPlaces` | cpersona/block_index.py:736-743 | each row's place within its record's run in the chunk, and how long the first run is |
| `BlockMerge.Places` | cpersona/block_index.py:734-745 | with the carried record and count, each row's place in the chunk is its place among all of its record's merged rows |
| `BlockMerge.NextChunk` | cpersona/block_index.py:694-732 | a chunk and the live rows before the next one extend the merged sequence to that chunk's end, empty chunks included |
| `BlockMerge.MergeEntries` | cpersona/block_index.py:690-753 | for every chunk size and both caps the merge gives the first `examined` rows of the key-ordered union after each record's rows past its share are dropped |
| `BlockMerge.Merge` | cpersona/block_index.py:673-773 | and with them flags and bits as many as they are due: a flag for each row, raised exactly for bits of the width, and a slot for each raised flag, in order |
| `BlockFile.SignedRoundTrip` | cpersona/block_index.py:414-417 | a signed value in range reads back from its two's-complement bytes |
| `BlockFile.RoundTrip` | cpersona/block_index.py:418-420 | an unsigned value in range reads back from its little-endian bytes |
| `BlockFile.SplitWritten` | cpersona/block_index.py:471-479 | a written column reads back value for value at the running offset, leaving what follows it |
| `BlockFile.BitsRoundTrip` | cpersona/block_index.py:421-422 | the bits matrix reads back row for row |
| `BlockFile.LoadedAsWritten` | cpersona/block_index.py:414-480 | all eight columns and the bits read back as they were written |
| `BlockFile.Load` | cpersona/block_index.py:449-495 | a file loads exactly when its header is usable and its length is what its row count and width call for; otherwise it is refused |
| `BlockFile.Intern` | cpersona/block_index.py:349-353 | a label table grows by exactly the text value it lacks, and the code given names that value; no label is listed twice |
| `BlockFile.AppendRow` | cpersona/block_index.py:369-388 | a row appended to the columns reads back through the label tables as the row it was, zeros where its bits have another width |
| `BlockFile.CollectRows` | cpersona/block_index.py:355-392 | the columns hold every row and each label table lists exactly the distinct values of the rows, or the build declines exactly when some row's bits are not a blob or its block index is outside 32 bits |
| `BlockFile.ListsCount` | cpersona/block_index.py:389-393 | a label table that lists the distinct values has as many labels as there are values, so its size against the codes is a matter of the rows alone |
| `BlockFile.WriteRows` | cpersona/block_index.py:304-425 | a build declines for the first of its checks that fails, and only then; where none fails the file is written and holds the snapshot's rows and clock |
| `BlockFile.VerdictSays` | cpersona/block_index.py:304-425 | the checks in order and in numbers: the log, the triggers, some rows, a positive width, every row of one of two kinds with a 32-bit block number and a blob, fewer than 65536 models and fewer than 2^31 values of the other axes |
| `BlockFile.WrittenLoads` | cpersona/block_index.py:413-495 | what a build wrote holds together and loads back column for column |
| `BlockRecall.BuildFile` | cpersona/block_index.py:304-425 | a snapshot becomes a file if and only if all of those hold; it is declined for the first that does not; and the file then holds every row that has bits |
| `BlockRecall.PartsMakeWhole` | cpersona/block_index.py:574-597 | unchanged file rows plus the changed records' live rows are exactly the table's admitted rows |
| `BlockRecall.CellsAreCurrent` | cpersona/block_index.py:761-773 | the bits of every merged row are the table's bits, by which its measurability is judged |
| `BlockRecall.SortLive` | cpersona/block_index.py:656-667 | the live rows are held in key order, each once |
| `BlockRecall.LiveCountIs` | cpersona/block_index.py:574-597 | the count held against the live bound is that of the left join's rows: one for each visible row of a changed record, and one for each changed record that has none |
| `BlockRecall.MergeChanged` | cpersona/block_index.py:669-670 | file and live rows merged are the direct read of the table, keys, flags and bits |
| `BlockRecall.ExamineIndex` | cpersona/block_index.py:632-670 | a loaded file answers exactly when its width fits, the clock accepts it, the join over the records logged after it has few enough rows, and those fit the columns |
| `BlockRecall.Examine` | cpersona/block_index.py:616-670 | over every run: a recall answered from the file is the direct read of the table, the visible rows within their records' shares in key order with a flag each and a slot of bits for each flag raised, and it answers if and only if the file holds together, has the width, is accepted and the live rows fit |
| `RankFusion.SortKeeps` | benchmarks/frozen_replay.py:339 | the sort is by score, highest first, and keeps every id |
| `RankFusion.SortFiltered` | benchmarks/frozen_replay.py:295-339 | filtering a stable sort is stable-sorting the filtered list, ties included |
| `RankFusion.FusionRanks` | benchmarks/frozen_replay.py:88-96 | the fusion lists each id of either list once, by the sum of 1/(k+rank) over the dense list and w/(k+rank) over the lexical one, ranks from one, highest first; equal sums in the order of the dense list and then of the lexical one |
| `RankFusion.FilteredRanks` | benchmarks/frozen_replay.py:295-339 | and filtered to any ids it lists those, by the same sums and the same order |
| `RankFusion.Fuse` | benchmarks/frozen_replay.py:304-339 | over any working set the nested fusion is the full fusion filtered to the ids the set brings in |
| `RankFusion.EnoughAhead` | benchmarks/frozen_replay.py:40-45 | at least n ids of the full fusion come before any id the depth-D working set leaves out |
| `RankFusion.BoundedTopIsExact` | benchmarks/frozen_replay.py:40-45 | with distinct ids, w >= 0, N <= D and (1+w)(K+N) <= K+D+1, the first N of the bounded fusion are the first N of the full one, ties in the same order, for any number of admitted dense rows |
| `RankFusion.CandidatesAreExact` | benchmarks/frozen_replay.py:40-42 | with a candidate subset the working set gives the full fusion filtered to the subset |
| `RankFusion.FuseBounded` | benchmarks/frozen_replay.py:295-339 | the code without candidates: its first N are those of that ranking for every N within the bound |
| `RankFusion.FuseCandidates` | benchmarks/frozen_replay.py:295-339 | the code over a candidate subset equals the filtered full fusion: the allowed ids by that ranking |
| `RankFusion.PastTheBound` | benchmarks/frozen_replay.py:40-45 | the bound is sharp at N = 1: with w <= 1 and (1+w)(K+1) > K+D+1, a document just past the depth in both lists is missed from first place |
| `AliasLedger.RollbackRestores` | cpersona/aliases.py:283-307 | undoing an unpersisted entry leaves the answers and the taken names as they were, the empty issuer included |
| `AliasLedger.StrictReadIsCurrent` | cpersona/aliases.py:162-206 | a strict re-read by a process in agreement with the file leaves it with exactly the file's rows |
| `AliasLedger.IssuedKeeps` | cpersona/aliases.py:268-320 | one issuance, however its persist ends, keeps every row of the file, answers only with what the file then holds, and keeps the process within the file |
| `AliasLedger.RowsOnlyGrow` | cpersona/aliases.py:240-320 | over every interleaving of processes, restarts and failed persists the file's rows only grow |
| `AliasLedger.NoRowTheFileLacks` | cpersona/aliases.py:285-312 | no process ever holds a row the file lacks, whatever writes failed or were cut short |
| `AliasLedger.AnswersAreCurrent` | cpersona/aliases.py:213-266 | every answer of a lookup or an issuance is the file's own row at the moment it is given |
| `AliasLedger.OnceIssuedStays` | cpersona/aliases.py:240-266 | a pair once answered with an alias is answered with that alias by every process from then on |
| `AliasLedger.RecordedIsAnswered` | cpersona/aliases.py:268-276 | in every reachable world an issuance for a pair the file records is never refused, whatever the write would have come to: it answers the recorded alias and leaves the file as it was |
| `AliasLedger.NeverRefusedAgain` | cpersona/aliases.py:240-276 | so a pair once answered with an alias is never refused to an issuance by any process from then on |
| `AliasLedger.NoSharing` | cpersona/aliases.py:278-283 | two pairs share an alias only where the file already linked them before the run |
| `AliasLedger.FreshIsFresh` | cpersona/aliases.py:278-283 | an issuance gives no pair an alias another pair has |
| `AliasLedger.Ledger.ResolveOrIssue` | cpersona/aliases.py:240-266 | an answer is the file's row for the pair; it says "issued" exactly when the pair was new, and refuses only a pair the file lacks when the lock or the write fails |
| `Graph.VisibleScopesAre` | cpersona/associations.py:135-146 | the visible scopes are the reader's own or empty value on each axis, each once, the exact scope first |
| `Graph.ResolvesNowhere` | cpersona/associations.py:149-167 | a name resolves to nothing exactly when no visible scope has an owner of it |
| `Graph.ExactFirst` | cpersona/associations.py:149-167 | an owner in the exact scope is what a name resolves to, whatever wider scopes hold |
| `Graph.DeclinesExactlyWhen` | cpersona/associations.py:193-201 | an alias is refused if and only if nothing is left of it or the entity does not answer to it and another one its reader sees does |
| `Graph.RegisterExtends` | cpersona/associations.py:170-190 | registering keeps one owner per exact scope and lands on an entity that answers to the name, of the exact scope when it must be or is new |
| `Graph.RegisterPlaces` | cpersona/associations.py:170-190 | a name is placed on the owner in the first scope that has one, and then nothing is written; where none has, as one new entity of the exact scope with this name and note, everything else as it was |
| `Graph.AliasingExtends` | cpersona/associations.py:204-212 | an alias that is not refused keeps one owner per exact scope and never undoes a refusal |
| `Graph.AliasesSettled` | cpersona/associations.py:302-310 | each usable alias within the bound ends attached or refused for good |
| `Graph.DeletingKeepsValid` | cpersona/database.py:1048-1053 | deleting an entity with its trigger leaves no declaration about what is not there |
| `Graph.ForgettingKeepsValid` | cpersona/database.py:1055-1067 | deleting a record with its trigger leaves no declaration about it |
| `Declare.DeclaredKeeps` | cpersona/associations.py:241-351 | for every declaration, malformed items included: the graph stays valid and everything declared before stays; the report is of exactly the items that say what they must within the bound, in order, each entity under its item's name and in sight of the call's readers with its aliases settled and its anchor's mention, each relation with its item's own verb, its own subject first and its own object; and whatever is new carries the call's provenance and time |
| `Declare.EntitiesAreReported` | cpersona/associations.py:283-314 | the entity items: each with a usable name within the bound is reported, in order, and no other |
| `Declare.RelationsAreReported` | cpersona/associations.py:316-350 | the relation items: each within the bound that has a verb and two ends that can be had is reported, in order, with its own ends and verb, and every other is counted as dropped |
| `Declare.EndKeeps` | cpersona/associations.py:222-238 | an end can be had exactly when it is a name or a ref to a record of the agent; it is then that record, or an entity in sight that answers to the name |
| `Carry.AllLanded` | cpersona/associations.py:584-619 | after all entities are landed each is still where it landed, in its own scope and with every alias attached or refused |
| `Carry.LandAgain` | cpersona/associations.py:584-619 | landing the same entities again, at another time, changes no name and finds the same ids |
| `Carry.CarryArrives` | cpersona/associations.py:629-678 | every mention and relation that can be written is in the store afterwards, what was there is unchanged, and nothing reported dropped means every one could be |
| `Carry.CarryIsFaithful` | cpersona/associations.py:581-678 | row for row: an entity that can be written is on the entity of its own scope under the agent that answers to its name, with each alias attached or refused; a mention or relation that can be written is there with its ends where they landed, its refs through the map, its scope and verb its own; and whatever is new is some row's, with that row's provenance and time |
| `Carry.CarryIsCounted` | cpersona/associations.py:581-678 | exactly the rows that can be written are counted as carried, and all the others as dropped |
| `Carry.CarriedTwice` | cpersona/associations.py:578-580 | carrying the same graph with the same map a second time, whatever the time by then, leaves the store as carrying it once did |
| `Carry.CarryKeeps` | cpersona/associations.py:555-678 | a carry keeps the graph valid and everything that was declared |
| `Rechannel.CompletesExactlyWhen` | cpersona/associations.py:757-769 | the planning finishes without a missing key if and only if every relation that lands in a channel finds a parcel there: some mentioned record went to it, or that relation or an earlier one landing there names an entity |
| `Rechannel.LandsWhereItFollows` | cpersona/associations.py:713-721 | a relation lands where the record it follows went: its anchor; without one, its subject when that was re-filed; its object otherwise |
| `Rechannel.AnAnchoredPairStopsIt` | cpersona/associations.py:768 | a relation between two records, anchored on a moved one that nothing mentions, indexes a channel that has no entry; such a store is valid and reads as just that |
| `Rechannel.CopiesFill` | cpersona/associations.py:773-783 | copying relations into further parcels keeps every parcel's contents and takes only what was read |
| `Rechannel.AllCopied` | cpersona/associations.py:773-783 | every relation that is to be copied is in every parcel it is to be copied to |
| `Follow.PlanMoves` | cpersona/associations.py:743-783 | the three loops build the parcels, or stop at the missing key under exactly the condition above |
| `Follow.FollowAgent` | cpersona/associations.py:743-825 | one agent's pass: it finishes under exactly the condition above, and writes nothing when it does not |
| `Follow.FollowingLosesNothing` | cpersona/associations.py:785-825 | in every completed pass, for any order of the channels: each mention is still there or has an image in its own record's new channel, each relation that follows a record in that record's, each relation with no record behind it in every channel it is to be copied to, each alias in every channel its entity goes to; and what is filed elsewhere is untouched |
| `Follow.DeletedOnlyWhenCopied` | cpersona/associations.py:813-825 | an entity is deleted only from the old channel and only when every mention of it and every relation naming it has an image |
| `Follow.EverythingFollows` | cpersona/associations.py:757-812 | when nothing is dropped each mention and relation of a re-filed record has left the old channel for that record's, each relation with no record behind it has its copy in every channel due, and each entity that arrived whole has its aliases in every channel it goes to |
| `Follow.PlannedEntities` | cpersona/associations.py:757-772 | an entity goes into the parcels of exactly the channels where a record that mentions it went or a relation naming it follows a record |
| `Follow.PlannedCopies` | cpersona/associations.py:773-783 | a relation with no record behind it is in the parcel of every channel one of its entities goes to where the other goes too or is visible |
| `Follow.PassLosesNothing` | cpersona/associations.py:743-825 | the same for the plan the code itself makes |
| `Undropped.NeverLost` | cpersona/associations.py:785-806 | from a valid graph no carry of a pass ever drops a row, for any agent with a name: the branch that keeps every original is never taken |
| `Undropped.NamelessKeepsAll` | cpersona/associations.py:785-806 | for the agent without a name it always is, and the pass leaves the graph as it was |
| `Refusals.AllTried` | cpersona/associations.py:785-808 | after the carries each entity is in every channel it goes to with each alias attached or refused, and what is reported incomplete had an alias refused in one of them |
| `Origins.PassOnlyCopies` | cpersona/associations.py:743-825 | nothing is invented: after a completed pass of a named agent every row that is new, entity, alias, mention or relation, is a copy of one the agent had in the old channel, in a channel where it is due, with the same name, written text, verb, anchor, provenance and time, its ends the originals' images |
| `Outcome.PrunedTakes` | cpersona/associations.py:813-825 | a candidate is deleted unless a mention or an uncopied relation still names it |
| `Outcome.PassIsDone` | cpersona/associations.py:743-825 | a completed pass of a named agent, told by the graph before and after alone: each mention of a moved record has left for the record's channel; each relation that follows one has left for it, and each that follows none is copied wherever it is due; each entity is in every channel it goes to with each alias it was not refused there; and an entity that went somewhere with all its aliases, and that no mention and no uncopied relation names, is gone |
| `Outcome.PassFollows` | cpersona/associations.py:743-825 | and nothing else of the agent changes: what is filed elsewhere stays, what has left has its image, only an entity that went somewhere is ever deleted, and what is new is a copy of what was there |
| `FollowAll.ReadGraph` | cpersona/associations.py:494-521 | the reading is exactly the agent's entities with their aliases, its mentions of them and its relations, filed in the channel |
| `FollowAll.OneMoreFollowed` | cpersona/associations.py:742-825 | one more agent's pass follows that agent, told from the graph before the whole call, leaves every agent followed before it followed, and what any other has as it was |
| `Elsewhere.PassAdds` | cpersona/associations.py:785-825 | one agent's pass adds for that agent alone and nothing to the old channel, and gives no id, alias or declaration another meaning |
| `Elsewhere.OthersUntouched` | cpersona/associations.py:785-825 | so what every other agent has, entities, aliases, mentions and relations with what they say, is the same after it |
| `Apart.FollowedSince` | cpersona/associations.py:742-825 | what a pass came to is told from any earlier graph in which the agent had the same |
| `Apart.FollowedStays` | cpersona/associations.py:742-825 | and stays so while another agent is followed, deletions and refusals included |
| `FollowAll.CompletesAsAtFirst` | cpersona/associations.py:742-769 | and the next agent's pass completes exactly when it would have on the first store |
| `FollowAll.CompletesAsStored` | cpersona/associations.py:757-769 | whether a pass completes is told by the stored declarations alone: each relation that lands in a channel finds there a mention's record, or an entity of its own or of an earlier relation landing there |
| `FollowAll.FollowRechannelled` | cpersona/associations.py:724-825 | over all agents: each agent whose records moved is followed, its mentions and relations gone from the old channel and in their records' own, its copies, entities and aliases wherever they are due, its entities that nothing names any more deleted, nothing else lost, and nothing added that is not a copy; every other agent has exactly what it had; and the call completes if and only if no agent, by what the store holds before the call, has a relation that lands where no parcel is |
| `GraphRuns.ReachedIsValid` | cpersona/associations.py:149-351 | every graph reachable by declaring, carrying, following, retracting, repointing, and deleting records, entities or an agent's whole graph is valid |
| `GraphRuns.ReachedHasOneOwner` | cpersona/associations.py:149-314 | in every reachable graph a normalized name or alias belongs to at most one entity of one exact scope, and carrying any graph a second time, at any later time, is carrying it once |
| `Repoint.RepointKeepsValid` | cpersona/associations.py:681-711 | pointed at a record of the same agent, the declarations stay about records that exist |
| `Repoint.RepairLosesNothing` | cpersona/associations.py:681-711 | once the old record is deleted, each of its mentions is its survivor's; each relation that named it says the same of the survivor, end for end; notes are kept; nothing else is lost and nothing else is new |
| `Repoint.RepointAll` | cpersona/associations.py:681-711 | the loops over the map and over the naming rows, in any order of the rows: each pair of two refs of one kind is repointed, the mentions exactly as said and no relation lost, any other pair is passed over |
| `Repoint.DroppingTakesTheAgent` | cpersona/admin_handlers.py:994-999 | dropping an agent's graph leaves none of its entities and relations, keeps every other agent's entities, aliases and mentions as they were, and of their relations exactly those between entities that stay |
| `Neighbourhood.NewIsShortest` | cpersona/associations.py:1000-1018 | what a hop reaches first is exactly what has a shortest path of that length |
| `Neighbourhood.ReadFrontier` | cpersona/associations.py:1031-1045 | for any batch size and any order of the rows: the relations touching the frontier, and for each new entity the newest relation that reaches it |
| `Neighbourhood.KeepFirst` | cpersona/associations.py:1048-1053 | the room left goes to the entities the newest relations reached |
| `Neighbourhood.Hop` | cpersona/associations.py:1026-1056 | one hop gives the next distance to all that is new, or the cut's share of it |
| `Neighbourhood.Walk` | cpersona/associations.py:1023-1056 | the whole walk, with the hop bound, the entity bound and the batch size as parameters: the distances it returns are true shortest-path lengths, for all in range if and only if the bound allows it |
| `Neighbourhood.WalkedIsExact` | cpersona/associations.py:1011-1014 | every distance is the true shortest-path length, all entities in range get one if and only if the bound allows it or only the starts are in range, and no more than max(starts, bound) do |
| `Neighbourhood.ExpandedIsLoaded` | cpersona/associations.py:1007-1010 | every relation of an entity that was expanded is loaded, those at the hop bound included |
| `Neighbourhood.Recency` | cpersona/associations.py:1057-1059 | the recency order is newest first, then the lower relation id |
| `AgentRows.ListingIsExact` | cpersona/admin_handlers.py:4822-4833 | a listing names each id once, in order |
| `AgentRows.PageContinues` | cpersona/admin_handlers.py:5049-5055 | a keyset page takes the listing up again exactly where the last one left it, and an empty page means the end |
| `AgentRows.AlikeShare` | cpersona/admin_handlers.py:4860-4884 | two rows share an identity exactly when they are one agent's and alike: memories of one project by a message id that says something or by channel and content, episodes by project, channel and summary, profiles by user |
| `EpisodeIndex.SummaryIndex.KeysFor` | cpersona/admin_handlers.py:3718-3742 | after one keyset walk the index stands for the agent's stored episodes, or knows that it cannot |
| `EpisodeIndex.SummaryIndex.Probe` | cpersona/admin_handlers.py:3744-3750 | the table's own answer |
| `EpisodeIndex.SummaryIndex.Find` | cpersona/admin_handlers.py:3752-3768 | for any digest function, collisions included: an id is returned exactly when the agent holds such an episode, and it is one |
| `EpisodeIndex.IsEpisodeWhen` | cpersona/admin_handlers.py:3744-3750 | which is a row with those columns |
| `AgentCopy.PreviewTellsTheTruth` | cpersona/admin_handlers.py:4836-5004 | for any table and offers whose probed inserts succeed, duplicates within the batch included, the preview's merged and skipped counts are the real run's and it writes and queues nothing |
| `AgentCopy.PreviewWritesNothing` | cpersona/admin_handlers.py:4793-4797 | whatever the inserts would do |
| `AgentCopy.RealRunCopies` | cpersona/admin_handlers.py:4885-4918 | each copy is a new row holding an offered row; what was there stays |
| `AgentCopy.RunIsGated` | cpersona/admin_handlers.py:4860-4918 | every row a real run adds says something, was taken by the database and was like nothing in the table before, and no two of them are alike |
| `AgentCopy.UncopiedIsLeft` | cpersona/admin_handlers.py:4860-4918 | and a source row that was not copied says nothing, or the database would not take it, or the target has a row like it |
| `AgentCopy.EveryRowIsCounted` | cpersona/admin_handlers.py:4854-4918 | every source row that says something is counted once, as merged or as skipped, in a preview and in a real run |
| `AgentCopy.RepeatMergesNothing` | cpersona/admin_handlers.py:4860-4884 | offering the same rows again merges and copies nothing |
| `AgentCopy.MoveConserves` | cpersona/admin_handlers.py:5082-5124 | for any table: a source row is gone and its copy, of the same kind and with every column but the agent its own, is new under the target and had no like there; or it stays untouched because it says nothing, could not be taken or has a like; every other row stays; every new row is such a copy, no two alike; and the number of rows is unchanged |
| `AgentCopy.MoveEmpties` | cpersona/admin_handlers.py:5108-5124 | what is left at the source is exactly what was not copied |
| `AgentMerge.RepeatedMergeMergesNothing` | cpersona/admin_handlers.py:4805-5046 | merging the same two agents again copies nothing and changes nothing |
| `AgentMerge.ProfilesAreApart` | cpersona/admin_handlers.py:5025-5046 | under the profile key's uniqueness no two source profiles collide, so the profile preview needs no memory of the batch |
| `AgentMerge.MergePreviewTellsTheTruth` | cpersona/admin_handlers.py:4805-5046 | a merge preview's counts are the real merge's, for memories, episodes and profiles, and nothing is written or queued |
| `AgentMerge.TablePass.IsDuplicate` | cpersona/admin_handlers.py:4860-4884 | the probes of the gate, the episode digest index among them, say whether the row's identity is held |
| `AgentMerge.TablePass.DeleteCopied` | cpersona/admin_handlers.py:5113-5124 | for any chunk size exactly the copied ids are deleted, and counted |
| `AgentMerge.TablePass.MoveAgent` | cpersona/admin_handlers.py:5082-5124 | a move conserves the table in just that way, and as many rows are deleted as were merged |
| `ImportRun.ImportPreviewTellsTheTruth` | cpersona/admin_handlers.py:4086-4467 | for any store and file whose probed inserts succeed, the preview's imported and skipped counts and every profile's outcome are the restore's, repeats within the file included, and it writes and queues nothing |
| `ImportRun.FirstLineStands` | cpersona/admin_handlers.py:4405-4416 | of the lines of a key the first with usable content and a stamp not older than the stored one's stands: its text cleaned, its stamp or the clock, in the project stored before; where there is none the profile is as it was |
| `ImportRun.FileIsRestored` | cpersona/admin_handlers.py:4086-4359 | a restore brings back exactly the memories and episodes that are missing: each new row is a line's, its text cleaned and every other column its own, none is like another or like one that was there, and every readable line is answered by a row unless the database takes none |
| `ImportRun.LinesAreCounted` | cpersona/admin_handlers.py:4086-4359 | each memory line, and each episode line with a summary, is counted once, and what is counted as imported is what the tables have gained |
| `Calibration.WriteLeavesTheRest` | cpersona/admin_handlers.py:2488-2575 | a locked write over a payload of the running dimension and score leaves every per-agent entry the writer has not changed, and is not measuring, setting or clearing, as the file had it: the calibrated agent's own precision too in a plain calibration |
| `Calibration.WriteKeepsExactlyWhen` | cpersona/admin_handlers.py:2488-2575 | a write that lands keeps such an entry if and only if the writer holds no unsaved change to it or that change is what the file holds |
| `Calibration.WriteLeavesGlobals` | cpersona/admin_handlers.py:1694-1701 | and every global axis it has not changed, except that an owned one the file lacks is written with the live value |
| `Calibration.PurgeTakesOnlyTheAgent` | cpersona/admin_handlers.py:1011-1066 | a purge removes the agent's entries from memory, and from the file or keeps the removal pending, and touches no other agent's |
| `Calibration.WriteCalibrates` | cpersona/admin_handlers.py:2488-2575 | what a write that landed leaves, entry for entry: the agent's gate is the one measured, and the signal its signal, exactly when one was measured at the precision the agent still has or is given; its precision is set or cleared as asked unless no gate was measured at it while the agent has one measured at another; every other entry and global is the file's where it may be carried and the writer has no unsaved change, else the writer's; the process holds the same of what it owns, and nothing is unsaved |
| `Calibration.WriteUnsaved` | cpersona/admin_handlers.py:2488-2575 | a write that does not reach the file leaves it alone, and the gate and signal in memory under the same condition, unsaved |
| `Calibration.BootAdopts` | cpersona/admin_handlers.py:2851-2889 | a boot takes from the file what the process has not changed, the precisions alone where the rest does not fit, and owns what it took |
| `Calibration.StepOwns` | cpersona/admin_handlers.py:2851-2889 | whatever step a process takes, what it holds or has pending it owns |
| `Calibration.NoUpdateIsLost` | cpersona/admin_handlers.py:1661-1701 | over every stretch of a run in which nobody measures, sets or purges an entry, the file keeps it throughout if and only if no process writes in between while it holds an unsaved change to it that the file does not have |
| `Calibration.StepKeepsExactlyWhen` | cpersona/admin_handlers.py:1661-1701 | one step, with the same condition |
| `Calibration.SettledStays` | cpersona/admin_handlers.py:1661-1701 | where every unsaved change to an entry is what the file holds nothing overwrites it later, over every such stretch |
| `Calibration.AnIdlePurgeErases` | cpersona/admin_handlers.py:1021-1065 | an update that is lost: one process purges an agent nothing is held of, another measures the agent and saves, and the first one's next write for any other agent takes the saved entry out |
| `Calibration.PurgedStaysGone` | cpersona/admin_handlers.py:1025-1031 | over every such run an entry absent from the file stays absent unless some process measures or sets it again or held an unsaved value for it |
| `Separation.SearchLeft` | cpersona/admin_handlers.py:1296 | the left insertion point splits the sorted values at the candidate |
| `Separation.TailFractions` | cpersona/admin_handlers.py:1288-1297 | sort and binary search give the fraction of values at or above each candidate, counted directly |
| `Separation.FirstArgmax` | cpersona/admin_handlers.py:1301-1302 | the first candidate where the objective is greatest |
| `Separation.Threshold` | cpersona/admin_handlers.py:1252-1303 | over the range of the two populations, the first of `n` evenly spaced candidates from its least value to its greatest where the objective is greatest, no less than the floor, and the difference of fractions there; a range of one value has only that value |
| `Separation.ThresholdIs` | cpersona/admin_handlers.py:1276-1303 | the range and the candidates so described are those the code computes |
| `Separation.BalancedIsYouden` | cpersona/admin_handlers.py:1263-1267 | at weight one no candidate separates the two populations better |
| `Separation.BestRises` | cpersona/admin_handlers.py:1263-1267 | the first best candidate is no earlier for a larger beta, on any candidates in ascending order |
| `Separation.StricterNeverLowers` | cpersona/admin_handlers.py:2647-2651 | on the same populations and floor a stricter precision never lowers the threshold |
| `Packing.PartIsAllowed` | benchmarks/budget_batching.py:208-219 | part of an allowed batch is an allowed batch |
| `Packing.AllowedWhenObeyed` | benchmarks/budget_batching.py:208-219 | a batch is allowed exactly when it is one document, or is no more than the bound and its size times the square of each of its lengths, and of 16, is within the budget |
| `Packing.GreedyIsAhead` | benchmarks/budget_batching.py:208-228 | after as many batches greedy packing is at least as far as any split of the order into allowed batches |
| `Packing.GreedyIsOptimal` | benchmarks/budget_batching.py:208-228 | no such split uses fewer batches |
| `Packing.Grow` | benchmarks/budget_batching.py:213-220 | a batch obeys both bounds or is one document, and could not take the next |
| `Packing.Sorted` | benchmarks/budget_batching.py:201 | the documents to encode, each once, ascending by length and, among equal lengths, in their own order |
| `Packing.LookUp` | benchmarks/budget_batching.py:180-189 | each cached slot is filled, and the rest are exactly what is to do |
| `Packing.EncodeBatch` | benchmarks/budget_batching.py:221-225 | one batch fills its own slots with its own encodings and no others |
| `Packing.PutMany` | benchmarks/budget_batching.py:226-227 | one batch files its encodings under its texts' keys and leaves every other entry as it was |
| `Packing.PackAndEncode` | benchmarks/budget_batching.py:203-228 | the batches are consecutive stretches of the whole order, each as large as the bounds allow, and each document is encoded in its slot |
| `Packing.BudgetEncode` | benchmarks/budget_batching.py:154-239 | every output slot holds its text's cached vector or its encoding; the batches are consecutive, obey those bounds and take as much as they may; afterwards every text is cached, no entry is overwritten, and each new entry is the encoding of a text with that key; one text or none goes to the model directly |
| `Packing.EncodedIsOptimal` | benchmarks/budget_batching.py:201-228 | the batches used for a list are a split of its sorted documents and no split uses fewer |
| `JsonStream.IterJsonArray` | benchmarks/longmemeval_history.py:7-50 | for any decoder, text and chunk size the reader ends; where no value changes with what follows it and no chunk cuts a value where what is before the cut decodes, it gives the whole-text parse if and only if the first chunk is not blank before the array, and it refuses the text as no array exactly when that chunk is blank or there is none |
| `JsonStream.IteratedAgrees` | benchmarks/longmemeval_history.py:20-50 | and where a part of a value that decodes is another value, it gives the whole-text parse if and only if, besides, no chunk cuts a value so |
| `JsonStream.ChunkingDoesNotMatter` | benchmarks/longmemeval_history.py:20-50 | so an array of values that say themselves where they end is read the same for every chunk size whose first chunk is not blank |
| `JsonStream.ACutNumberIsMisread` | benchmarks/longmemeval_history.py:39-49 | the reader on `[123]`, three characters at a time: it yields 12 and then finds no separator, where the text holds 123 |
| `JsonStream.TruncatedIsRejected` | benchmarks/longmemeval_history.py:31-45 | an array is accepted only if its text ends with a closing bracket and nothing but blanks after it |
| `JsonStream.WrittenIsReadBack` | benchmarks/longmemeval_history.py:7-50 | an array written out with commas is read back value for value |
| `Guard.SweepReachesEveryAgent` | cpersona/acl.py:333-353 | a sweep is granted at a level if and only if every agent, the named exceptions included, is granted it |
| `Guard.ConnectionIsTheOnlyOne` | cpersona/acl.py:709-721 | the connection's agent is an agent if and only if it can be written and no other can |
| `Guard.CheckOwn` | cpersona/acl.py:1040-1058 | the boundary loop passes exactly when every demand on an agent's data is on the caller's own alias |
| `Guard.CheckGrants` | cpersona/acl.py:1060-1131 | the grant loop passes exactly when every demand on an agent's data is granted |
| `Guard.GrantedExactlyWhen` | cpersona/acl.py:384-559 | what each tool demands, by what it takes to be granted: reading to look and writing to change, at the agent its argument names or at every agent where it names none; every agent besides for a repair beyond the agent, for a process-wide act, and for a file that is not confined; both sides of a merge; and for a confined file the agents it belongs to or holds |
| `Guard.WithinExactlyWhen` | cpersona/acl.py:1040-1058 | a call's demands are all on one agent exactly when the call stays with that agent in every argument and file |
| `Guard.RunsExactlyWhen` | cpersona/acl.py:909-1153 | a call runs, and on exactly these arguments, if and only if: the client has its subject where one is required; the agent left out is the connection's; every @me is the alias issued; a per-subject call stays with that alias; the client may call the tool so; and no row is created under a reserved name |
| `Guard.RefusedFor` | cpersona/acl.py:909-1153 | and a refusal names what is missing |
| `Guard.FilledInIsTheOnlyOne` | cpersona/acl.py:965-972 | an agent filled in is the subject's own alias, or the only agent the client's grants can write |
| `Guard.OmissionDemandsEveryone` | cpersona/acl.py:368-380 | a scoped tool called with no usable scope demands every agent |
| `BlockClock.BlockStore.StartLog` | cpersona/block_index.py:160-179 | turns the log on and raises the generation by one only if it was off; returns the generation the log now runs under |
| `BlockClock.BlockStore.StopLog` | cpersona/block_index.py:182-193 | turns the log off, empties it and moves the mark to the head, or does nothing if it was off |
| `BlockClock.BlockStore.PruneLog` | cpersona/block_index.py:216-236 | within the build's own generation, drops exactly the entries at or below the built position and raises the mark to it if it was lower; otherwise nothing |
| `BlockClock.BlockStore.Fire` | cpersona/database.py:852-871 | a trigger numbers its entry from the clock's own head, only while logging is on |
| `BlockClock.BlockStore.InsertRow` | cpersona/database.py:852-857 | an insert changes the row and logs the record it belongs to |
| `BlockClock.BlockStore.DeleteRow` | cpersona/database.py:859-864 | a delete changes the row and logs the record it belonged to |
| `BlockClock.BlockStore.UpdateRow` | cpersona/database.py:866-879 | an update logs the record the row leaves, and the one it moves to when its key changes record |
| `BlockMerge.TakeChunk` | cpersona/block_index.py:734-753 | what a chunk adds is what both caps, taken over the whole merged sequence, take of it |
| `BlockMerge.MeasureRow` | cpersona/block_index.py:761-773 | one merged row is measured from the file or from the live row it came from: a flag always, a slot only when its bits have the width |
| `RankFusion.RrfFuse` | benchmarks/frozen_replay.py:88-96 | the dictionary-and-sort code computes the fusion of the two full lists, ranked as said |
| `RankFusion.DenseRows` | benchmarks/frozen_replay.py:310-328 | the admitted rows of the working set, in dense order, each with its full-list dense vote |
| `RankFusion.AddLexical` | benchmarks/frozen_replay.py:329-338 | the lexical-only rows follow in lexical order, and every row gets its full-list lexical vote |
| `AliasLedger.LedgerFile.Replace` | cpersona/aliases.py:396 | a renamed-in file holds the rows under a new fingerprint |
| `AliasLedger.Ledger.Refresh` | cpersona/aliases.py:162-206 | a strict refresh adopts or refuses; a lenient one adopts or keeps the rows last read |
| `AliasLedger.Ledger.Peek` | cpersona/aliases.py:213-218 | answers from the refreshed rows and never issues |
| `AliasLedger.Ledger.IssuedAliases` | cpersona/aliases.py:220-238 | the cached set is always the refreshed rows' aliases |
| `AliasLedger.Ledger.Persist` | cpersona/aliases.py:356-405 | the three ways a persist ends: replaced and remembered, not replaced, or replaced and interrupted before it is remembered |
| `AliasLedger.Ledger.IssueLocked` | cpersona/aliases.py:268-320 | under the lock: re-read, mint an untaken name, persist, or roll back |
| `Graph.GraphDb.ResolveEntity` | cpersona/associations.py:149-167 | the loop over the scopes finds the first scope's lowest owner |
| `Graph.GraphDb.RegisterEntity` | cpersona/associations.py:170-190 | reuses what the name resolves to or inserts in the exact scope; nothing but the names changes |
| `Graph.GraphDb.AddAlias` | cpersona/associations.py:204-212 | attaches the alias or reports the refusal and changes nothing |
| `Graph.GraphDb.AddAliases` | cpersona/associations.py:302-310 | the aliases are tried in order, each against what the earlier ones left |
| `Graph.GraphDb.AddMention` | cpersona/associations.py:215-219 | a mention is written once and not overwritten |
| `Graph.GraphDb.DeleteEntity` | cpersona/database.py:1048-1053 | an entity goes with its aliases, mentions and relations |
| `Graph.GraphDb.DeleteRecord` | cpersona/database.py:1055-1067 | a record takes the mentions, ends and anchors that name it |
| `Declare.DeclareEntity` | cpersona/associations.py:289-314 | one entity: exact scope only when it carries a usable alias, the aliases in order, the mention of the anchor |
| `Declare.DeclareEnd` | cpersona/associations.py:222-238 | an end is a record of this agent, the first visible owner of a name, a new entity of the exact scope when there is none, or refused |
| `Declare.DeclareRelation` | cpersona/associations.py:317-350 | a relation is dropped at the first unusable part, with the entities its earlier end registered left in place; otherwise it is written subject first |
| `Declare.DeclareAll` | cpersona/associations.py:275-351 | the loops over both lists, with the item bound and the anchor check, report and write what the items say, and keep what was there |
| `Carry.LandEntity` | cpersona/associations.py:584-619 | one entity lands on its name's owner in its exact scope or a new entity there, its aliases tried in order |
| `Carry.CarryMentions` | cpersona/associations.py:629-640 | the mention loop writes and counts exactly the mentions whose entity and record came along |
| `Carry.CarryRelations` | cpersona/associations.py:642-677 | the relation loop writes and counts exactly the relations all of whose parts came along |
| `Carry.CarryGraph` | cpersona/associations.py:581-678 | the whole carry is entities, then mentions, then relations |
| `Follow.CarryParcels` | cpersona/associations.py:785-808 | the parcels are carried one after another, in any order of the channels |
| `Follow.Prune` | cpersona/associations.py:814-825 | the candidates nothing but copied relations names are deleted, lowest id first |
| `Follow.TakeOut` | cpersona/associations.py:810-825 | what was carried leaves the old channel, unless something was dropped |
| `FollowAll.ByAgent` | cpersona/associations.py:738-741 | each agent's moves apart from another's, those back to the old channel left out |
| `Repoint.DropAgent` | cpersona/admin_handlers.py:998-999 | the two deletions with their trigger |
| `EpisodeIndex.SummaryIndex.Add` | cpersona/admin_handlers.py:3770-3779 | the index goes on standing for the table as the run inserts |
| `AgentMerge.TablePass.OfferRow` | cpersona/admin_handlers.py:4854-4918 | one row: passed over, skipped, previewed or copied |
| `AgentMerge.TablePass.InsertRow` | cpersona/admin_handlers.py:4978-5004 | a new id, the source id remembered, the index told |
| `AgentMerge.TablePass.CopyPage` | cpersona/admin_handlers.py:4822-4833 | a page read before any of it is copied offers the next rows of the source |
| `AgentMerge.TablePass.CopyAgent` | cpersona/admin_handlers.py:4805-4833 | for any page size, reading the table it inserts into, the pass offers each source row exactly once; each copy has its source's columns under the target, and every source row that says something is merged or skipped |
| `ImportRun.Restore.ImportMemory` | cpersona/admin_handlers.py:4086-4249 | one memory line on either arm |
| `ImportRun.Restore.ImportEpisode` | cpersona/admin_handlers.py:4268-4359 | one episode line on either arm |
| `ImportRun.Restore.ImportProfile` | cpersona/admin_handlers.py:4362-4466 | one profile line on either arm, and what is reported of it: no content, unstorable, emptied by cleaning, already restored from this file, older than the stored one, or restored |
| `ImportRun.Restore.ImportFile` | cpersona/admin_handlers.py:4069-4466 | the file line by line |
| `Calibration.Calibrator.RecordChange` | cpersona/vector.py:370-377 | a change is claimed and marked pending |
| `Calibration.Calibrator.RefreshUnchanged` | cpersona/admin_handlers.py:1661-1701 | every owned entry that is not pending takes the file's value or goes |
| `Calibration.Calibrator.SetGate` | cpersona/admin_handlers.py:2505-2535 | the gate and the signal are taken exactly when a gate was measured at the precision the agent still has or is given |
| `Calibration.Calibrator.WriteCalibration` | cpersona/admin_handlers.py:2488-2575 | the locked write from read to replace leaves just that, in the file and in memory, and the cases in which nothing is replaced |
| `Calibration.Calibrator.Adopt` | cpersona/admin_handlers.py:2785-2790 | a precision change is adopted once it is on disk, claimed and not pending |
| `Calibration.Calibrator.PurgeAgent` | cpersona/admin_handlers.py:1011-1066 | the purge of memory and file, and whether anything was removed |
| `JsonStream.Stream.Fill` | benchmarks/longmemeval_history.py:14-18 | a read moves the next characters of the file to the buffer and loses none |
| `JsonStream.Stream.Open` | benchmarks/longmemeval_history.py:20-24 | the first read, blanks dropped, and the opening bracket |
| `JsonStream.Stream.SkipBlanks` | benchmarks/longmemeval_history.py:27-30 | reads on until the buffer begins with something or the file is at its end, as the chunked reading does |
| `JsonStream.Stream.NextValue` | benchmarks/longmemeval_history.py:39-47 | the retried decode finds the first part that decodes, of those that end where a chunk does |
| `JsonStream.Stream.NextItem` | benchmarks/longmemeval_history.py:26-50 | one turn of the loop is one turn of the chunked reading |
| `JsonStream.Stream.Values` | benchmarks/longmemeval_history.py:25-50 | the loop terminates for any decoder and text, and gives what the chunked reading gives |
| `Guard.Guarded` | cpersona/acl.py:909-1153 | the early exits and rewrites of the wrapper are that decision: no ACL admits everything, no principal or classification denies |
| `Guard.AdmittedIsGranted` | cpersona/acl.py:1060-1131 | an admitted call has every demanded reach granted, and an all-agents demand every agent |
| `Guard.SubjectReachesOnlyItsOwn` | cpersona/acl.py:1029-1058 | a per-subject client's admitted demands are all on its own alias |
| `Guard.NoSentinelIsLeft` | cpersona/acl.py:1018-1025 | no scope argument an admitted call carries still reads "@me", and only what the guard fills in or resolves differs from what was sent |
| `Guard.MoveWritesBoth` | cpersona/acl.py:537-543 | an admitted move can write its source and its target |

## Left out

- Databases from before the change log (no clock row), the choice of the modal width when a build is given none, and the counting of purges during a build.
- The header's bytes, its alignment and its JSON: a header is parsed or unusable; the body after it is modelled byte by byte.
- Keys and axes that are not text or integers: a kind is its code in collation order, an axis is text; bits may be NULL, a blob or another type.
- A row replaced through the row id of another record (`INSERT OR REPLACE` by hand), and label tables longer than 32-bit codes, which the model declines as the 16-bit ones are.
- `Examined.measured` and the Hamming distance; `_current`; the vector index files and their own log.
- The library sorts and searches (`lexsort`, `bisect`, `sorted`, `argsort`, `searchsorted`) appear as the insertion sort and binary search their documentation defines, or as functions.
- NFKC normalization and ref parsing: a declared name carries what was written and what it compares as; a ref is a kind and an id.
- Relation ids: a relation is its unique key, so a relation written twice is one.
- `carry(dry_run=True)`, `retract`'s report, `query_terms`, `record_links`, the mentioning records and the traversal built on the neighbourhood.
- FollowRechannelled: agents and channels are taken in any order rather than sorted; the relation table is given in id order; and when a key is missing what earlier agents' passes wrote is kept in the model, where the transaction around the call takes it back.
- RepointAll: the survivors are records of the agent, as the dedup repair that calls it makes sure; relation ids are not kept apart from the relations.
- ResolveOrIssue: operators' hand edits of the ledger file, and why a lock or a write fails; a fingerprint is assumed new for every renamed-in file.
- MergePreviewTellsTheTruth: one table at a time; the columns no probe looks at travel as one value, and the graph, the folders, the queued tasks and the reports around the merge are not part of it. The profile pass reports two flags where the model counts.
- ImportPreviewTellsTheTruth: header checks, field coercions, embeddings, future-stamp and axis counts and error texts; a line is storable or refused.
- NoUpdateIsLost: all processes run one width and one score; what is measured, how an unreadable file is copied aside and how a write fails are given to the step.
- Threshold: real numbers; no NaN and no rounding.
- BudgetEncode: one text's vector does not depend on the batch it is encoded in; tokenising, prompts (part of the cache key) and memory management are not modelled.
- IterJsonArray: the decoder is any function that consumes at least one character of what it decodes; file encoding errors are left out.
- Guarded: loading the grant table, resolving tokens, the wording of denials and the echo's placement in the response; which names are reserved for new rows is a parameter.
- Listings, by-id edits, the dashboard, HTTP calls, queues and logging: easy members with no claim across functions.
