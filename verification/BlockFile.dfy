/** Writing the block index file and loading it back (cpersona/block_index.py,
    `_write_rows` and `_load_open`), down to the bytes of its columns. */
module BlockFile {
  import opened Common
  import opened BlockRows
  import opened BlockMerge

  const FORMAT_VERSION := 1
  const INT32_MAX := 0x7fff_ffff
  const MODEL_LABELS_MAX := 65_535
  const ROW_BYTES := 28   // every column of a row except its bits

  // ---- little-endian integers ------------------------------------------------------------

  function Encode(x: int, size: nat): (bytes: seq<byte>)
    ensures |bytes| == size
    decreases size
  {
    if size == 0 then [] else [x % 256] + Encode(x / 256, size - 1)
  }

  function Decode(bytes: seq<byte>): (x: nat) {
    if bytes == [] then 0 else bytes[0] + 256 * Decode(bytes[1..])
  }

  /** Two's complement: the last byte carries the sign. */
  function DecodeSigned(bytes: seq<byte>): (x: int) {
    if bytes == [] then 0
    else if |bytes| == 1 then (if bytes[0] < 128 then bytes[0] else bytes[0] - 256)
    else bytes[0] + 256 * DecodeSigned(bytes[1..])
  }

  /** The values `size` bytes hold: [-Half, Half) signed, [0, 2 * Half) unsigned. */
  function Half(size: nat): (h: int)
    requires size > 0
    ensures h > 0
  {
    if size == 1 then 128 else 256 * Half(size - 1)
  }

  lemma {:induction false} SignedRoundTrip(x: int, size: nat)
    requires size > 0 && -Half(size) <= x < Half(size)
    ensures DecodeSigned(Encode(x, size)) == x
    decreases size
  {
    if size > 1 {
      SignedRoundTrip(x / 256, size - 1);
      assert Encode(x, size)[1..] == Encode(x / 256, size - 1);
    } else {
      assert Encode(x / 256, 0) == [];
    }
  }

  lemma {:induction false} RoundTrip(x: int, size: nat)
    requires size > 0 && 0 <= x < 2 * Half(size)
    ensures Decode(Encode(x, size)) == x
    decreases size
  {
    assert Encode(x, size)[1..] == Encode(x / 256, size - 1);
    if size > 1 {
      RoundTrip(x / 256, size - 1);
    }
  }

  // ---- columns -----------------------------------------------------------------------------

  /** How a column's bytes read: its item size and whether it is signed. */
  datatype Item = Item(size: nat, signed: bool)
  {
    predicate Holds(x: int)
      requires size > 0
    {
      if signed then -Half(size) <= x < Half(size) else 0 <= x < 2 * Half(size)
    }

    function Read(bytes: seq<byte>): int {
      if signed then DecodeSigned(bytes) else Decode(bytes)
    }
  }

  const INT64 := Item(8, true)
  const INT32 := Item(4, true)
  const UINT16 := Item(2, false)
  const UINT8 := Item(1, false)

  /** The bytes of a column from its `i`-th value on. */
  function WriteFrom(xs: seq<int>, i: nat, size: nat): (bytes: seq<byte>)
    requires i <= |xs|
    ensures |bytes| == (|xs| - i) * size
    decreases |xs| - i
  {
    if i == |xs| then [] else
      assert (|xs| - i) * size == size + (|xs| - i - 1) * size;
      Encode(xs[i], size) + WriteFrom(xs, i + 1, size)
  }

  function WriteColumn(xs: seq<int>, size: nat): (bytes: seq<byte>)
    ensures |bytes| == |xs| * size
  {
    WriteFrom(xs, 0, size)
  }

  /** A column of `n` values read at the running offset, and the bytes after it. */
  function Split(bytes: seq<byte>, n: nat, item: Item): (r: (seq<int>, seq<byte>))
    requires n * item.size <= |bytes|
    ensures |r.0| == n && |r.1| == |bytes| - n * item.size
    decreases n
  {
    if n == 0 then ([], bytes) else
      assert n * item.size == item.size + (n - 1) * item.size;
      var later := Split(bytes[item.size..], n - 1, item);
      ([item.Read(bytes[..item.size])] + later.0, later.1)
  }

  lemma {:induction false} ItemRoundTrip(x: int, item: Item)
    requires item.size > 0 && item.Holds(x)
    ensures item.Read(Encode(x, item.size)) == x
  {
    if item.signed {
      SignedRoundTrip(x, item.size);
    } else {
      RoundTrip(x, item.size);
    }
  }

  lemma {:induction false} SplitFrom(xs: seq<int>, i: nat, item: Item, tail: seq<byte>)
    requires i <= |xs| && item.size > 0 && forall j | i <= j < |xs| :: item.Holds(xs[j])
    ensures (|xs| - i) * item.size <= |WriteFrom(xs, i, item.size) + tail|
    ensures Split(WriteFrom(xs, i, item.size) + tail, |xs| - i, item) == (xs[i..], tail)
    decreases |xs| - i
  {
    if i < |xs| {
      var first, later := Encode(xs[i], item.size), WriteFrom(xs, i + 1, item.size) + tail;
      SplitFrom(xs, i + 1, item, tail);
      ItemRoundTrip(xs[i], item);
      assert WriteFrom(xs, i, item.size) + tail == first + later;
      SplitStep(first, later, |xs| - i, item);
      assert xs[i..] == [xs[i]] + xs[i+1..];
    } else {
      assert WriteFrom(xs, i, item.size) + tail == tail;
    }
  }

  lemma {:induction false} SplitStep(first: seq<byte>, later: seq<byte>, n: nat, item: Item)
    requires n > 0 && |first| == item.size && (n - 1) * item.size <= |later|
    ensures n * item.size <= |first + later|
    ensures var rest := Split(later, n - 1, item);
      Split(first + later, n, item) == ([item.Read(first)] + rest.0, rest.1)
  {
    assert n * item.size == item.size + (n - 1) * item.size;
    assert (first + later)[..item.size] == first && (first + later)[item.size..] == later;
  }

  /** A written column reads back, and what follows it is left. */
  lemma {:induction false} SplitWritten(xs: seq<int>, item: Item, tail: seq<byte>)
    requires item.size > 0 && forall j | 0 <= j < |xs| :: item.Holds(xs[j])
    ensures Split(WriteColumn(xs, item.size) + tail, |xs|, item) == (xs, tail)
  {
    SplitFrom(xs, 0, item, tail);
  }

  /** The matrix of bits, one row of `width` bytes each. */
  function WriteBits(rows: seq<seq<byte>>, i: nat, width: nat): (bytes: seq<byte>)
    requires i <= |rows| && forall r | r in rows :: |r| == width
    ensures |bytes| == (|rows| - i) * width
    decreases |rows| - i
  {
    if i == |rows| then [] else
      assert rows[i] in rows && (|rows| - i) * width == width + (|rows| - i - 1) * width;
      rows[i] + WriteBits(rows, i + 1, width)
  }

  function ReadBits(bytes: seq<byte>, n: nat, width: nat): (rows: seq<seq<byte>>)
    requires |bytes| == n * width
    ensures |rows| == n && forall i | 0 <= i < n :: |rows[i]| == width
  {
    if n == 0 then [] else
      assert n * width == width + (n - 1) * width;
      [bytes[..width]] + ReadBits(bytes[width..], n - 1, width)
  }

  lemma {:induction false} BitsRoundTrip(rows: seq<seq<byte>>, i: nat, width: nat)
    requires i <= |rows| && forall r | r in rows :: |r| == width
    ensures ReadBits(WriteBits(rows, i, width), |rows| - i, width) == rows[i..]
    decreases |rows| - i
  {
    if i < |rows| {
      assert rows[i] in rows;
      var bytes := WriteBits(rows, i, width);
      assert bytes[..width] == rows[i] && bytes[width..] == WriteBits(rows, i + 1, width);
      BitsRoundTrip(rows, i + 1, width);
    }
  }

  // ---- the file ----------------------------------------------------------------------------

  datatype Header = Header(
    format: int, kinds: seq<string>, width: int, count: int,
    generation: nat, builtSeq: nat, cookie: nat,
    models: seq<string>, agents: seq<string>, projects: seq<string>, channels: seq<string>)

  const KINDS: seq<string> := ["ep", "mem"]

  /** A file on disk: a header that parsed, or not, and the bytes after it. */
  datatype File = File(header: Option<Header>, body: seq<byte>)

  /** The columns a build collects, one entry a row. */
  datatype Columns = Columns(
    kind: seq<int>, parentId: seq<int>, blockIndex: seq<int>,
    agent: seq<int>, project: seq<int>, channel: seq<int>, model: seq<int>,
    measurable: seq<int>, bits: seq<seq<byte>>)
  {
    predicate Level(n: nat) {
      && |kind| == |parentId| == |blockIndex| == |agent| == |project| == |channel| == n
      && |model| == |measurable| == |bits| == n
    }

    /** Every value fits the item its column is written with. */
    ghost predicate Fits(width: nat) {
      && (forall i | 0 <= i < |parentId| :: INT64.Holds(parentId[i]))
      && (forall i | 0 <= i < |blockIndex| :: INT32.Holds(blockIndex[i]))
      && (forall i | 0 <= i < |agent| :: INT32.Holds(agent[i]))
      && (forall i | 0 <= i < |project| :: INT32.Holds(project[i]))
      && (forall i | 0 <= i < |channel| :: INT32.Holds(channel[i]))
      && (forall i | 0 <= i < |model| :: UINT16.Holds(model[i]))
      && (forall i | 0 <= i < |kind| :: UINT8.Holds(kind[i]))
      && (forall i | 0 <= i < |measurable| :: UINT8.Holds(measurable[i]))
      && (forall r | r in bits :: |r| == width)
    }
  }

  /** The bytes of the columns, in file order: the key and the record's axes first, then
      what is read of the block. */
  function Body(c: Columns, n: nat, width: nat): (bytes: seq<byte>)
    requires c.Level(n)
    requires forall r | r in c.bits :: |r| == width
  {
    WriteColumn(c.parentId, 8) + (WriteColumn(c.blockIndex, 4) + (WriteColumn(c.agent, 4) +
    (WriteColumn(c.project, 4) + (WriteColumn(c.channel, 4) + BlockBytes(c, n, width)))))
  }

  function BlockBytes(c: Columns, n: nat, width: nat): (bytes: seq<byte>)
    requires c.Level(n)
    requires forall r | r in c.bits :: |r| == width
  {
    WriteColumn(c.model, 2) + (WriteColumn(c.kind, 1) +
    (WriteColumn(c.measurable, 1) + WriteBits(c.bits, 0, width)))
  }

  /** The bytes `n` rows take: every column of theirs, and their bits. */
  function BodySize(n: nat, width: nat): nat {
    n * ROW_BYTES + n * width
  }

  /** The columns a body of `n` rows of this width reads as. */
  function LoadColumns(body: seq<byte>, n: nat, width: nat): (c: Columns)
    requires |body| == BodySize(n, width)
    ensures c.Level(n) && forall i | 0 <= i < n :: |c.bits[i]| == width
  {
    var (parentId, b1) := Split(body, n, INT64);
    var (blockIndex, b2) := Split(b1, n, INT32);
    var (agent, b3) := Split(b2, n, INT32);
    var (project, b4) := Split(b3, n, INT32);
    var (channel, b5) := Split(b4, n, INT32);
    var (kind, model, measurable, bits) := LoadBlocks(b5, n, width);
    Columns(kind, parentId, blockIndex, agent, project, channel, model, measurable, bits)
  }

  function LoadBlocks(bytes: seq<byte>, n: nat, width: nat): (r: (seq<int>, seq<int>, seq<int>, seq<seq<byte>>))
    requires |bytes| == n * 4 + n * width
    ensures |r.0| == |r.1| == |r.2| == |r.3| == n && forall i | 0 <= i < n :: |r.3[i]| == width
  {
    var (model, b1) := Split(bytes, n, UINT16);
    var (kind, b2) := Split(b1, n, UINT8);
    var (measurable, b3) := Split(b2, n, UINT8);
    (kind, model, measurable, ReadBits(b3, n, width))
  }

  lemma {:induction false} BlocksAsWritten(c: Columns, n: nat, width: nat)
    requires c.Level(n) && c.Fits(width)
    ensures |BlockBytes(c, n, width)| == n * 4 + n * width
    ensures LoadBlocks(BlockBytes(c, n, width), n, width) == (c.kind, c.model, c.measurable, c.bits)
  {
    var t3 := WriteBits(c.bits, 0, width);
    var t2 := WriteColumn(c.measurable, 1) + t3;
    var t1 := WriteColumn(c.kind, 1) + t2;
    SplitWritten(c.model, UINT16, t1);
    SplitWritten(c.kind, UINT8, t2);
    SplitWritten(c.measurable, UINT8, t3);
    BitsRoundTrip(c.bits, 0, width);
  }

  /** Columns read back as they were written. */
  lemma {:induction false} LoadedAsWritten(c: Columns, n: nat, width: nat)
    requires c.Level(n) && c.Fits(width)
    ensures |Body(c, n, width)| == BodySize(n, width)
    ensures LoadColumns(Body(c, n, width), n, width) == c
  {
    BlocksAsWritten(c, n, width);
    var t5 := BlockBytes(c, n, width);
    var t4 := WriteColumn(c.channel, 4) + t5;
    var t3 := WriteColumn(c.project, 4) + t4;
    var t2 := WriteColumn(c.agent, 4) + t3;
    var t1 := WriteColumn(c.blockIndex, 4) + t2;
    SplitWritten(c.parentId, INT64, t1);
    SplitWritten(c.blockIndex, INT32, t2);
    SplitWritten(c.agent, INT32, t3);
    SplitWritten(c.project, INT32, t4);
    SplitWritten(c.channel, INT32, t5);
  }

  datatype Loaded = Unusable | Usable(index: BlockIndex, header: Header)

  /** Whether a file holds together: a header of this format that spells a geometry, and a
      body of exactly the bytes that geometry takes. */
  predicate HoldsTogether(f: File) {
    && f.header.Some?
    && f.header.value.format == FORMAT_VERSION && f.header.value.kinds == KINDS
    && f.header.value.width >= 1 && f.header.value.count >= 0
    && |f.body| == BodySize(f.header.value.count, f.header.value.width)
  }

  /** Load a file, or refuse one that does not hold together. */
  method Load(f: File) returns (r: Loaded)
    ensures r.Usable? <==> HoldsTogether(f)
    ensures r.Usable? ==>
      && r.header == f.header.value && r.index.Shaped()
      && r.index.Count() == r.header.count && r.index.width == r.header.width
      && r.index.models == r.header.models && r.index.agents == r.header.agents
      && r.index.projects == r.header.projects && r.index.channels == r.header.channels
      && |f.body| == BodySize(r.header.count, r.header.width)
      && ColumnsOf(r.index) == LoadColumns(f.body, r.header.count, r.header.width)
  {
    if f.header.None? {
      return Unusable;
    }
    var h := f.header.value;
    if h.format != FORMAT_VERSION || h.kinds != KINDS || h.width < 1 || h.count < 0 {
      return Unusable;
    }
    if |f.body| != BodySize(h.count, h.width) {
      return Unusable;
    }
    var n: nat := h.count;
    var c := LoadColumns(f.body, n, h.width);
    r := Usable(
      BlockIndex(h.width, c.kind, c.parentId, c.blockIndex, c.agent, c.project, c.channel, c.model,
                 c.measurable, c.bits, h.models, h.agents, h.projects, h.channels), h);
  }

  function ColumnsOf(index: BlockIndex): Columns {
    Columns(index.kind, index.parentId, index.blockIndex, index.agentCode, index.projectCode,
            index.channelCode, index.modelCode, index.measurable, index.bits)
  }

  // ---- the build's write -------------------------------------------------------------------

  /** A row as the build reads it from its snapshot. */
  datatype Stored = Stored(key: Key, row: Row)

  /** SQLite's integers are 64-bit. */
  ghost predicate FromSqlite(rows: seq<Stored>) {
    && (forall i, j | 0 <= i < j < |rows| :: Less(rows[i].key, rows[j].key))
    && (forall r | r in rows :: INT64.Holds(r.key.rec.parent) && r.row.bits != Null)
  }

  /** A row the file can hold. */
  predicate Holdable(s: Stored) {
    && 0 <= s.key.rec.kind < |KINDS|
    && INT32.Holds(s.key.block)
    && s.row.bits.Blob?
  }

  /** `setdefault`: a new value goes to the end of the table. */
  function Added(labels: seq<string>, value: string): seq<string> {
    if value in labels then labels else labels + [value]
  }

  /** The place of a value in a label table, adding it when it is new. */
  method Intern(labels: seq<string>, value: string) returns (grown: seq<string>, code: nat)
    requires Distinct(labels)
    ensures grown == Added(labels, value)
    ensures Distinct(grown) && code < |grown| && grown[code] == value
  {
    var at := CodeOf(labels, value);
    if 0 <= at < |labels| {
      return labels, at;
    }
    grown, code := labels + [value], |labels|;
  }

  /** A label table lists each of these values once, and nothing else. */
  ghost predicate Lists(labels: seq<string>, values: set<string>) {
    Distinct(labels) && forall v :: v in labels <==> v in values
  }

  function Among(labels: seq<string>): set<string> {
    set v | v in labels
  }

  lemma {:induction false} OneMoreLabel(before: seq<string>, value: string)
    requires value !in before
    ensures |Among(before + [value])| == |Among(before)| + 1
  {
    assert Among(before + [value]) == Among(before) + {value};
  }

  lemma {:induction false} DistinctCount(labels: seq<string>, n: nat)
    requires n <= |labels| && Distinct(labels)
    ensures |Among(labels[..n])| == n
  {
    if n > 0 {
      DistinctCount(labels, n - 1);
      assert labels[..n] == labels[..n-1] + [labels[n-1]];
      OneMoreLabel(labels[..n-1], labels[n-1]);
    }
  }

  lemma {:induction false} ListsCount(labels: seq<string>, values: set<string>)
    requires Lists(labels, values)
    ensures |labels| == |values|
  {
    DistinctCount(labels, |labels|);
    assert labels[..|labels|] == labels && Among(labels) == values;
  }

  /** The distinct values of each axis. */
  function Agents(rows: seq<Stored>): set<string> { set s | s in rows :: s.row.agent }
  function Projects(rows: seq<Stored>): set<string> { set s | s in rows :: s.row.project }
  function Channels(rows: seq<Stored>): set<string> { set s | s in rows :: s.row.channel }
  function Models(rows: seq<Stored>): set<string> { set s | s in rows :: s.row.model }

  /** The label tables list exactly the rows' values. */
  ghost predicate Labelled(index: BlockIndex, rows: seq<Stored>) {
    && Lists(index.agents, Agents(rows)) && Lists(index.projects, Projects(rows))
    && Lists(index.channels, Channels(rows)) && Lists(index.models, Models(rows))
  }

  lemma {:induction false} OneMoreValue(rows: seq<Stored>, s: Stored)
    ensures Agents(rows + [s]) == Agents(rows) + {s.row.agent}
    ensures Projects(rows + [s]) == Projects(rows) + {s.row.project}
    ensures Channels(rows + [s]) == Channels(rows) + {s.row.channel}
    ensures Models(rows + [s]) == Models(rows) + {s.row.model}
  {
    assert forall x :: x in rows + [s] <==> x in rows || x == s;
  }

  lemma {:induction false} OneMoreListed(labels: seq<string>, grown: seq<string>, values: set<string>, value: string)
    requires Lists(labels, values) && Distinct(grown) && grown == Added(labels, value)
    ensures Lists(grown, values + {value})
  {
  }

  /** The tables of one more row. */
  ghost predicate AddsLabels(index: BlockIndex, next: BlockIndex, row: Row) {
    && next.agents == Added(index.agents, row.agent) && next.projects == Added(index.projects, row.project)
    && next.channels == Added(index.channels, row.channel) && next.models == Added(index.models, row.model)
  }

  lemma {:induction false} LabelsFollow(index: BlockIndex, next: BlockIndex, before: seq<Stored>, s: Stored)
    requires Labelled(index, before) && AddsLabels(index, next, s.row)
    requires Distinct(next.models) && Distinct(next.agents) && Distinct(next.projects) && Distinct(next.channels)
    ensures Labelled(next, before + [s])
  {
    OneMoreValue(before, s);
    OneMoreListed(index.agents, next.agents, Agents(before), s.row.agent);
    OneMoreListed(index.projects, next.projects, Projects(before), s.row.project);
    OneMoreListed(index.channels, next.channels, Channels(before), s.row.channel);
    OneMoreListed(index.models, next.models, Models(before), s.row.model);
  }

  /** The distinct values fit the codes' items: 16 bits for models, 32 for the other axes. */
  predicate ValuesFit(rows: seq<Stored>) {
    && |Models(rows)| <= MODEL_LABELS_MAX && |Agents(rows)| <= INT32_MAX
    && |Projects(rows)| <= INT32_MAX && |Channels(rows)| <= INT32_MAX
  }

  lemma {:induction false} LabelsFitExactly(index: BlockIndex, rows: seq<Stored>)
    requires Labelled(index, rows)
    ensures LabelsFit(index) <==> ValuesFit(rows)
  {
    ListsCount(index.agents, Agents(rows));
    ListsCount(index.projects, Projects(rows));
    ListsCount(index.channels, Channels(rows));
    ListsCount(index.models, Models(rows));
  }

  /** Row `i` of an index is this stored row: its key, its axes through the label tables,
      and its bits when they have the file's width, zeroed otherwise. */
  ghost predicate RowIs(index: BlockIndex, i: nat, s: Stored)
    requires index.Valid() && i < index.Count()
  {
    && index.KeyAt(i) == s.key
    && index.AxesAt(i).(bits := s.row.bits) == s.row
    && s.row.bits.Blob?
    && (index.measurable[i] == 1 <==> |s.row.bits.bytes| == index.width)
    && (index.measurable[i] == 1 ==> index.bits[i] == s.row.bits.bytes)
    && (index.measurable[i] != 1 ==> index.measurable[i] == 0 && forall b | b in index.bits[i] :: b == 0)
  }

  /** An index holds exactly these rows, in order. */
  ghost predicate HoldsRows(index: BlockIndex, rows: seq<Stored>) {
    index.Valid() && index.Count() == |rows| && forall i: nat | i < |rows| :: RowIs(index, i, rows[i])
  }

  function Zeros(n: nat): (z: seq<byte>)
    ensures |z| == n && forall b | b in z :: b == 0
  {
    if n == 0 then [] else Zeros(n - 1) + [0]
  }

  /** `next` is `index` with one more row, and label tables that only grew. */
  ghost predicate Grows(index: BlockIndex, next: BlockIndex) {
    && index.Shaped() && next.Shaped() && next.Count() == index.Count() + 1 && next.width == index.width
    && index.kind <= next.kind && index.parentId <= next.parentId && index.blockIndex <= next.blockIndex
    && index.agentCode <= next.agentCode && index.projectCode <= next.projectCode
    && index.channelCode <= next.channelCode && index.modelCode <= next.modelCode
    && index.measurable <= next.measurable && index.bits <= next.bits
    && index.models <= next.models && index.agents <= next.agents
    && index.projects <= next.projects && index.channels <= next.channels
    && Distinct(next.models) && Distinct(next.agents) && Distinct(next.projects) && Distinct(next.channels)
  }

  lemma {:induction false} GrownHolds(index: BlockIndex, next: BlockIndex, before: seq<Stored>, s: Stored)
    requires HoldsRows(index, before) && FromSqlite(before + [s]) && Grows(index, next)
    requires next.Valid() ==> RowIs(next, |before|, s)
    requires var n := |before|;
      && next.KeyAt(n) == s.key
      && 0 <= next.agentCode[n] < |next.agents| && 0 <= next.projectCode[n] < |next.projects|
      && 0 <= next.channelCode[n] < |next.channels| && 0 <= next.modelCode[n] < |next.models|
      && |next.bits[n]| == next.width
    ensures HoldsRows(next, before + [s])
  {
    forall i, j | 0 <= i < j < next.Count() ensures Less(next.KeyAt(i), next.KeyAt(j)) {
      assert next.KeyAt(i) == (before + [s])[i].key && next.KeyAt(j) == (before + [s])[j].key by {
        OldRow(index, next, before, i);
        if j < |before| {
          OldRow(index, next, before, j);
        }
      }
    }
    assert next.Valid();
    forall i: nat | i < |before| ensures RowIs(next, i, (before + [s])[i]) {
      assert RowIs(index, i, before[i]);
      assert (before + [s])[i] == before[i];
    }
  }

  lemma {:induction false} OldRow(index: BlockIndex, next: BlockIndex, before: seq<Stored>, i: nat)
    requires HoldsRows(index, before) && Grows(index, next) && i < |before|
    ensures next.KeyAt(i) == before[i].key
  {
    assert RowIs(index, i, before[i]);
  }

  /** Append one row to the columns being built. */
  method AppendRow(index: BlockIndex, s: Stored, ghost before: seq<Stored>) returns (next: BlockIndex)
    requires HoldsRows(index, before) && FromSqlite(before + [s]) && Holdable(s)
    ensures Grows(index, next) && HoldsRows(next, before + [s])
    ensures AddsLabels(index, next, s.row)
  {
    var agents, agent := Intern(index.agents, s.row.agent);
    var projects, project := Intern(index.projects, s.row.project);
    var channels, channel := Intern(index.channels, s.row.channel);
    var models, model := Intern(index.models, s.row.model);
    var fits := |s.row.bits.bytes| == index.width;
    next := BlockIndex(index.width,
      index.kind + [s.key.rec.kind], index.parentId + [s.key.rec.parent], index.blockIndex + [s.key.block],
      index.agentCode + [agent], index.projectCode + [project], index.channelCode + [channel],
      index.modelCode + [model], index.measurable + [if fits then 1 else 0],
      index.bits + [if fits then s.row.bits.bytes else Zeros(index.width)],
      models, agents, projects, channels);
    GrownHolds(index, next, before, s);
  }

  datatype Refusal = LogOff | TriggersDiffer | NoRows | WidthUnmeasurable | RowUnholdable | TooManyLabels

  datatype Built = Declined(reason: Refusal) | Written(file: File)

  /** The label tables fit the codes' items: 16 bits for models, 32 for the other axes. */
  predicate LabelsFit(index: BlockIndex) {
    && |index.models| <= MODEL_LABELS_MAX && |index.agents| <= INT32_MAX
    && |index.projects| <= INT32_MAX && |index.channels| <= INT32_MAX
  }

  /** A file is these rows: its body is the columns of an index that holds them. */
  ghost predicate FileHolds(f: File, index: BlockIndex, rows: seq<Stored>) {
    && f.header.Some? && HoldsRows(index, rows) && index.width >= 1
    && f.header.value.format == FORMAT_VERSION && f.header.value.kinds == KINDS
    && f.header.value.width == index.width && f.header.value.count == |rows|
    && f.header.value.models == index.models && f.header.value.agents == index.agents
    && f.header.value.projects == index.projects && f.header.value.channels == index.channels
    && ColumnsOf(index).Fits(index.width)
    && f.body == Body(ColumnsOf(index), |rows|, index.width)
  }

  lemma {:induction false} Halves()
    ensures Half(1) == 128 && Half(2) == 0x8000 && Half(4) == 0x8000_0000
  {
    assert Half(3) == 256 * Half(2);
  }

  lemma {:induction false} HeldRowsFit(index: BlockIndex, rows: seq<Stored>)
    requires HoldsRows(index, rows) && FromSqlite(rows) && LabelsFit(index)
    requires forall r | r in rows :: Holdable(r)
    ensures ColumnsOf(index).Fits(index.width)
  {
    Halves();
    forall i: nat | i < |rows|
      ensures INT64.Holds(index.parentId[i]) && INT32.Holds(index.blockIndex[i]) && UINT8.Holds(index.kind[i])
      ensures UINT8.Holds(index.measurable[i])
    {
      assert RowIs(index, i, rows[i]) && rows[i] in rows;
      assert index.KeyAt(i) == rows[i].key;
    }
  }

  /** Fill the columns and label tables, unless some row cannot be held. */
  method CollectRows(rows: seq<Stored>, width: nat) returns (held: bool, index: BlockIndex)
    requires FromSqlite(rows)
    ensures held ==> index.width == width && HoldsRows(index, rows) && Labelled(index, rows)
    ensures held <==> forall s | s in rows :: Holdable(s)
  {
    index := BlockIndex(width, [], [], [], [], [], [], [], [], [], [], [], [], []);
    var i := 0;
    while i < |rows|
      invariant 0 <= i <= |rows|
      invariant index.width == width && HoldsRows(index, rows[..i]) && Labelled(index, rows[..i])
      invariant forall j | 0 <= j < i :: Holdable(rows[j])
    {
      if !Holdable(rows[i]) {
        assert rows[i] in rows;
        return false, index;
      }
      assert rows[..i+1] == rows[..i] + [rows[i]];
      EarlierRows(rows, i + 1);
      var next := AppendRow(index, rows[i], rows[..i]);
      LabelsFollow(index, next, rows[..i], rows[i]);
      index := next;
      i := i + 1;
    }
    assert rows[..i] == rows;
    held := true;
  }

  /** What a build comes to: the first of its checks that fails, or a file. */
  function Verdict(rows: seq<Stored>, width: int, logging: bool, triggersOk: bool): (r: Option<Refusal>) {
    if !logging then Some(LogOff)
    else if !triggersOk then Some(TriggersDiffer)
    else if rows == [] then Some(NoRows)
    else if width < 1 then Some(WidthUnmeasurable)
    else if exists s :: s in rows && !Holdable(s) then Some(RowUnholdable)
    else if !ValuesFit(rows) then Some(TooManyLabels)
    else None
  }

  /** A row in numbers the columns take: one of the two kinds, a block number of 32 bits, and a
      blob. */
  predicate FitsTheColumns(s: Stored) {
    && (s.key.rec.kind == 0 || s.key.rec.kind == 1)
    && -0x8000_0000 <= s.key.block < 0x8000_0000
    && s.row.bits.Blob?
  }

  /** Few enough distinct values to number: 16 bits for models, 31 for the other axes. */
  predicate FewValues(rows: seq<Stored>) {
    && |set r | r in rows :: r.row.model| < 0x1_0000
    && |set r | r in rows :: r.row.agent| < 0x8000_0000
    && |set r | r in rows :: r.row.project| < 0x8000_0000
    && |set r | r in rows :: r.row.channel| < 0x8000_0000
  }

  lemma {:induction false} HoldableExactly(s: Stored)
    ensures Holdable(s) <==> FitsTheColumns(s)
  {
    Halves();
  }

  /** Why a build declines: each reason where all before it are met and this is not. */
  predicate DeclinesFor(reason: Refusal, rows: seq<Stored>, width: int, logging: bool, triggersOk: bool) {
    match reason
    case LogOff => !logging
    case TriggersDiffer => logging && !triggersOk
    case NoRows => logging && triggersOk && rows == []
    case WidthUnmeasurable => logging && triggersOk && rows != [] && width < 1
    case RowUnholdable => logging && triggersOk && rows != [] && width >= 1 && exists s :: s in rows && !FitsTheColumns(s)
    case TooManyLabels =>
      logging && triggersOk && rows != [] && width >= 1 && (forall s | s in rows :: FitsTheColumns(s)) && !FewValues(rows)
  }

  lemma {:induction false} FewValuesFit(rows: seq<Stored>)
    ensures FewValues(rows) <==> ValuesFit(rows)
  {
    assert (set r | r in rows :: r.row.model) == Models(rows);
    assert (set r | r in rows :: r.row.agent) == Agents(rows);
    assert (set r | r in rows :: r.row.project) == Projects(rows);
    assert (set r | r in rows :: r.row.channel) == Channels(rows);
  }

  /** A build declines for that reason, or writes. */
  lemma {:induction false} VerdictSays(rows: seq<Stored>, width: int, logging: bool, triggersOk: bool)
    ensures match Verdict(rows, width, logging, triggersOk)
      case Some(reason) => DeclinesFor(reason, rows, width, logging, triggersOk)
      case None =>
        logging && triggersOk && rows != [] && width >= 1 && (forall s | s in rows :: FitsTheColumns(s)) && FewValues(rows)
  {
    FewValuesFit(rows);
    forall s | s in rows ensures Holdable(s) <==> FitsTheColumns(s) {
      HoldableExactly(s);
    }
  }

  /** Read every row of one snapshot and write the file, or decline. `index` is what the
      file then holds. */
  method WriteRows(rows: seq<Stored>, width: int, logging: bool, triggersOk: bool,
                   generation: nat, head: nat, cookie: nat)
      returns (r: Built, ghost index: BlockIndex)
    requires FromSqlite(rows)
    ensures var v := Verdict(rows, width, logging, triggersOk); if v.Some? then r == Declined(v.value) else r.Written?
    ensures r.Written? ==> FileHolds(r.file, index, rows) && Labelled(index, rows) && index.width == width
    ensures r.Written? ==>
      && r.file.header.value.generation == generation && r.file.header.value.builtSeq == head
      && r.file.header.value.cookie == cookie
  {
    var next := BlockIndex(0, [], [], [], [], [], [], [], [], [], [], [], [], []);
    index := next;
    if !logging {
      return Declined(LogOff), index;
    }
    if !triggersOk {
      return Declined(TriggersDiffer), index;
    }
    if rows == [] {
      return Declined(NoRows), index;
    }
    if width < 1 {
      return Declined(WidthUnmeasurable), index;
    }
    var held;
    held, next := CollectRows(rows, width);
    index := next;
    if !held {
      return Declined(RowUnholdable), index;
    }
    LabelsFitExactly(next, rows);
    if !LabelsFit(next) {
      return Declined(TooManyLabels), index;
    }
    HeldRowsFit(next, rows);
    var header := Header(FORMAT_VERSION, KINDS, width, |rows|, generation, head, cookie,
                         next.models, next.agents, next.projects, next.channels);
    r := Written(File(Some(header), Body(ColumnsOf(next), |rows|, width)));
  }

  lemma {:induction false} EarlierRows(rows: seq<Stored>, n: nat)
    requires FromSqlite(rows) && n <= |rows|
    ensures FromSqlite(rows[..n])
  {
  }

  /** What a build wrote loads back row for row. */
  lemma {:induction false} WrittenLoads(f: File, index: BlockIndex, rows: seq<Stored>)
    requires FileHolds(f, index, rows)
    ensures HoldsTogether(f)
    ensures |f.body| == BodySize(|rows|, index.width)
    ensures LoadColumns(f.body, |rows|, index.width) == ColumnsOf(index)
  {
    BodyLoads(f.body, ColumnsOf(index), |rows|, index.width);
  }

  lemma {:induction false} BodyLoads(body: seq<byte>, c: Columns, n: nat, width: nat)
    requires c.Level(n) && c.Fits(width) && body == Body(c, n, width)
    ensures |body| == BodySize(n, width)
    ensures LoadColumns(body, n, width) == c
  {
    LoadedAsWritten(c, n, width);
  }
}
