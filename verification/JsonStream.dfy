/** Streaming a JSON array in chunks (benchmarks/longmemeval_history.py,
    `iter_json_array`), against a parse of the whole text: where the chunks may end for the
    values to be the same. */
module JsonStream {
  import opened Common

  /** A decoded value, named by a number. */
  datatype Value = Value(code: nat)

  /** How a reading ends. */
  datatype Ending = Finished | NotAnArray | MissingSeparator | Incomplete | TrailingData

  datatype Reading = Reading(values: seq<Value>, ending: Ending)

  /** The decoder of one value at the start of a text, and the characters `lstrip` takes. */
  datatype Json = Json(raw: string -> Option<(Value, nat)>, space: char -> bool)

  /** `raw_decode`: a value and where it ends, past at least one character. */
  function Decode(j: Json, s: string): (r: Option<(Value, nat)>)
    ensures r.Some? ==> 0 < r.value.1 <= |s|
  {
    var r := j.raw(s);
    if r.Some? && 0 < r.value.1 <= |s| then r else None
  }

  function Strip(j: Json, s: string): (r: string)
    ensures |r| <= |s| && (r != [] ==> !j.space(r[0]))
  {
    if s != [] && j.space(s[0]) then Strip(j, s[1..]) else s
  }

  predicate Starts(s: string, c: char) {
    s != [] && s[0] == c
  }

  // ---- readings ---------------------------------------------------------------------------------

  /** One step of a reading. */
  datatype Item = Yields(value: Value) | Ended(ending: Ending)

  function After(values: seq<Value>, r: Reading): Reading {
    Reading(values + r.values, r.ending)
  }

  lemma {:induction false} AfterOne(values: seq<Value>, v: Value, r: Reading)
    ensures After(values, After([v], r)) == After(values + [v], r)
  {
    assert values + ([v] + r.values) == (values + [v]) + r.values;
  }

  lemma {:induction false} AfterSame(v: Value, a: Reading, b: Reading)
    ensures After([v], a) == After([v], b) <==> a == b
  {
    assert ([v] + a.values)[1..] == a.values && ([v] + b.values)[1..] == b.values;
  }

  lemma {:induction false} AfterDiffers(v: Value, w: Value, a: Reading, b: Reading)
    requires v != w
    ensures After([v], a) != After([w], b)
  {
    assert ([v] + a.values)[0] == v && ([w] + b.values)[0] == w;
  }

  // ---- a text and its places ----------------------------------------------------------------------

  /** A text by its places: `dec(a, b)` is what decodes at the start of what lies between. */
  datatype Source = Source(text: string, space: char -> bool, dec: (nat, nat) -> Option<(Value, nat)>)

  function SourceOf(j: Json, text: string): Source {
    Source(text, j.space, (a: nat, b: nat) => if a <= b <= |text| then Decode(j, text[a..b]) else None)
  }

  function Between(s: Source, a: nat, b: nat): (r: Option<(Value, nat)>)
    ensures r.Some? ==> a < a + r.value.1 <= b
  {
    var r := s.dec(a, b);
    if r.Some? && 0 < r.value.1 && a + r.value.1 <= b then r else None
  }

  predicate Sees(s: Source, at: nat, end: nat, c: char)
    requires at <= end <= |s.text|
  {
    at < end && s.text[at] == c
  }

  /** The first place from `q` on, before `end`, that is no blank. */
  function Skip(s: Source, q: nat, end: nat): (r: nat)
    requires q <= end <= |s.text|
    ensures q <= r <= end && (r < end ==> !s.space(s.text[r]))
    decreases end - q
  {
    if q < end && s.space(s.text[q]) then Skip(s, q + 1, end) else q
  }

  /** Skipping to one end and then on to a later one. */
  lemma {:induction false} SkipOn(s: Source, q: nat, mid: nat, end: nat)
    requires q <= mid <= end <= |s.text|
    ensures Skip(s, Skip(s, q, mid), end) == Skip(s, q, end)
    ensures Skip(s, q, mid) < mid ==> Skip(s, q, end) == Skip(s, q, mid)
    decreases mid - q
  {
    if q < mid && s.space(s.text[q]) {
      SkipOn(s, q + 1, mid, end);
    }
  }

  // ---- the whole text at once ------------------------------------------------------------------

  /** The values from a place on, to the end of the array. */
  function Parse(s: Source, q: nat, first: bool): Reading
    requires q <= |s.text|
    decreases |s.text| - q
  {
    var n := |s.text|;
    var at := Skip(s, q, n);
    if Sees(s, at, n, ']') then Reading([], if Skip(s, at + 1, n) == n then Finished else TrailingData)
    else if !first && !Sees(s, at, n, ',') then Reading([], MissingSeparator)
    else
      var value := if first then at else Skip(s, at + 1, n);
      match Between(s, value, n)
      case None => Reading([], Incomplete)
      case Some((v, end)) => After([v], Parse(s, value + end, false))
  }

  /** The text holds an array. */
  predicate HoldsArray(s: Source) {
    Sees(s, Skip(s, 0, |s.text|), |s.text|, '[')
  }

  function Whole(s: Source): Reading {
    if HoldsArray(s) then Parse(s, Skip(s, 0, |s.text|) + 1, true) else Reading([], NotAnArray)
  }

  /** A value follows: neither the end of the array nor a missing separator. */
  predicate HasValue(s: Source, q: nat, first: bool)
    requires q <= |s.text|
  {
    var n := |s.text|;
    var at := Skip(s, q, n);
    !Sees(s, at, n, ']') && (first || Sees(s, at, n, ','))
  }

  /** The place it begins at, once the separator is passed. */
  function ValueAt(s: Source, q: nat, first: bool): (r: nat)
    requires q <= |s.text| && HasValue(s, q, first)
    ensures q <= r <= |s.text|
  {
    var at := Skip(s, q, |s.text|);
    if first then at else Skip(s, at + 1, |s.text|)
  }

  lemma {:induction false} StripIsSkip(j: Json, text: string, q: nat, end: nat)
    requires q <= end <= |text|
    ensures Strip(j, text[q..end]) == text[Skip(SourceOf(j, text), q, end)..end]
    decreases end - q
  {
    if q < end && j.space(text[q]) {
      assert text[q..end][1..] == text[q+1..end];
      StripIsSkip(j, text, q + 1, end);
    }
  }

  lemma {:induction false} StripFrom(j: Json, text: string, q: nat)
    requires q <= |text|
    ensures Strip(j, text[q..]) == text[Skip(SourceOf(j, text), q, |text|)..]
  {
    StripIsSkip(j, text, q, |text|);
    assert text[q..] == text[q..|text|];
  }

  lemma {:induction false} DecodeAt(j: Json, text: string, a: nat, b: nat)
    requires a <= b <= |text|
    ensures Decode(j, text[a..b]) == Between(SourceOf(j, text), a, b)
    ensures b == |text| ==> Decode(j, text[a..]) == Between(SourceOf(j, text), a, b)
  {
    assert b == |text| ==> text[a..] == text[a..b];
  }

  // ---- reading in chunks -------------------------------------------------------------------------

  function Least(a: nat, b: nat): nat {
    if a < b then a else b
  }

  /** What is buffered runs from `q` to `pos`. Read on until something is there that is no
      blank, or the file ends. */
  function SkipTo(s: Source, chunk: nat, q: nat, pos: nat): (r: (nat, nat))
    requires chunk > 0 && q <= pos <= |s.text|
    ensures q <= r.0 <= r.1 <= |s.text| && pos <= r.1 && (r.0 < r.1 || r.1 == |s.text|)
    decreases |s.text| - pos
  {
    var at := Skip(s, q, pos);
    if at < pos || pos == |s.text| then (at, pos) else SkipTo(s, chunk, at, Least(pos + chunk, |s.text|))
  }

  datatype Tried = Tried(value: Option<Value>, q: nat, pos: nat)

  /** Decode what is buffered, reading on while that fails and the file goes on. */
  function FirstTry(s: Source, chunk: nat, q: nat, pos: nat): (t: Tried)
    requires chunk > 0 && q <= pos <= |s.text|
    ensures q <= t.q <= t.pos <= |s.text| && pos <= t.pos && (t.value.Some? ==> q < t.q)
    decreases |s.text| - pos
  {
    var at := Skip(s, q, pos);
    match Between(s, at, pos)
    case Some((v, end)) => Tried(Some(v), at + end, pos)
    case None =>
      if pos == |s.text| then Tried(None, at, pos) else FirstTry(s, chunk, at, Least(pos + chunk, |s.text|))
  }

  /** One turn of the reader: a value or the end, and what is buffered then. */
  datatype Turn = Turn(item: Item, q: nat, pos: nat)

  function NextOf(s: Source, chunk: nat, q: nat, pos: nat, first: bool): (r: Turn)
    requires chunk > 0 && q <= pos <= |s.text|
    ensures q <= r.q <= r.pos <= |s.text| && (r.item.Yields? ==> q < r.q)
  {
    var to, n := SkipTo(s, chunk, q, pos), |s.text|;
    if Sees(s, to.0, to.1, ']') then
      Turn(Ended(if Skip(s, to.0 + 1, n) == n then Finished else TrailingData), to.0, to.1)
    else if !first && !Sees(s, to.0, to.1, ',') then Turn(Ended(MissingSeparator), to.0, to.1)
    else
      var t := FirstTry(s, chunk, if first then to.0 else to.0 + 1, to.1);
      Turn(if t.value.Some? then Yields(t.value.value) else Ended(Incomplete), t.q, t.pos)
  }

  /** The values from here on, as the reader finds them. */
  function Streamed(s: Source, chunk: nat, q: nat, pos: nat, first: bool): Reading
    requires chunk > 0 && q <= pos <= |s.text|
    decreases |s.text| - q
  {
    var r := NextOf(s, chunk, q, pos, first);
    match r.item
    case Ended(ending) => Reading([], ending)
    case Yields(v) => After([v], Streamed(s, chunk, r.q, r.pos, false))
  }

  function Iterated(s: Source, chunk: nat): Reading
    requires chunk > 0
  {
    var pos := Least(chunk, |s.text|);
    var at := Skip(s, 0, pos);
    if Sees(s, at, pos, '[') then Streamed(s, chunk, at + 1, pos, true) else Reading([], NotAnArray)
  }

  // ---- where chunks end --------------------------------------------------------------------------

  /** A multiple of the chunk size: a place a read may end at before the file does. */
  predicate Boundary(chunk: nat, p: nat)
    requires chunk > 0
  {
    p == 0 || (p >= chunk && Boundary(chunk, p - chunk))
  }

  lemma {:induction false} NextBoundary(chunk: nat, p: nat, q: nat)
    requires chunk > 0 && Boundary(chunk, p) && p < q && Boundary(chunk, q)
    ensures p + chunk <= q
    decreases q
  {
    if p > 0 {
      NextBoundary(chunk, p - chunk, q - chunk);
    }
  }

  /** What is buffered ends at the first boundary past its beginning, or with the file. */
  ghost predicate Tight(s: Source, chunk: nat, q: nat, pos: nat)
    requires chunk > 0
  {
    && q <= pos <= |s.text| && (pos == |s.text| || Boundary(chunk, pos))
    && (forall p: nat | q < p < pos :: !Boundary(chunk, p))
  }

  /** The value that begins at a place does not change with what follows it, and where none
      begins no part of the text there decodes either. */
  ghost predicate Steady(s: Source, at: nat) {
    var d := Between(s, at, |s.text|);
    forall b: nat | at <= b <= |s.text| && (d.None? || at + d.value.1 <= b) :: Between(s, at, b) == d
  }

  /** A part of the value that decodes is another value. */
  ghost predicate CutShows(s: Source, at: nat) {
    var d := Between(s, at, |s.text|);
    d.Some? ==>
      forall b: nat | at <= b < at + d.value.1 && Between(s, at, b).Some? :: Between(s, at, b).value.0 != d.value.0
  }

  /** A chunk ends at `b`, inside the value that begins at `at`, and what is before it decodes. */
  ghost predicate Cuts(s: Source, chunk: nat, at: nat, b: nat)
    requires chunk > 0
  {
    var d := Between(s, at, |s.text|);
    d.Some? && at < b < at + d.value.1 && Boundary(chunk, b) && Between(s, at, b).Some?
  }

  ghost predicate Uncut(s: Source, chunk: nat, at: nat)
    requires chunk > 0
  {
    forall b: nat :: !Cuts(s, chunk, at, b)
  }

  /** A value that says itself where it ends: nothing shorter decodes, and nothing after it
      changes it. */
  ghost predicate Delimits(s: Source, at: nat) {
    var d := Between(s, at, |s.text|);
    forall b: nat | at <= b <= |s.text| ::
      Between(s, at, b) == if d.Some? && at + d.value.1 <= b then d else None
  }

  /** The places the values of the rest of the array begin at. */
  ghost function Places(s: Source, q: nat, first: bool): set<nat>
    requires q <= |s.text|
    decreases |s.text| - q
  {
    if !HasValue(s, q, first) then {}
    else
      var at := ValueAt(s, q, first);
      var d := Between(s, at, |s.text|);
      {at} + if d.Some? then Places(s, at + d.value.1, false) else {}
  }

  ghost predicate AllSteady(s: Source, places: set<nat>) {
    forall at | at in places :: Steady(s, at)
  }

  ghost predicate AllShow(s: Source, places: set<nat>) {
    forall at | at in places :: CutShows(s, at)
  }

  ghost predicate AllUncut(s: Source, chunk: nat, places: set<nat>)
    requires chunk > 0
  {
    forall at | at in places :: Uncut(s, chunk, at)
  }

  ghost predicate AllDelimit(s: Source, places: set<nat>) {
    forall at | at in places :: Delimits(s, at)
  }

  // ---- a chunked reading against the whole ---------------------------------------------------------

  lemma {:induction false} FilledIsTight(s: Source, chunk: nat, pos: nat)
    requires chunk > 0 && pos < |s.text| && Boundary(chunk, pos)
    ensures Tight(s, chunk, pos, Least(pos + chunk, |s.text|))
  {
    forall p: nat | pos < p < Least(pos + chunk, |s.text|) ensures !Boundary(chunk, p) {
      if Boundary(chunk, p) {
        NextBoundary(chunk, pos, p);
      }
    }
  }

  lemma {:induction false} SkipToIs(s: Source, chunk: nat, q: nat, pos: nat)
    requires chunk > 0 && Tight(s, chunk, q, pos)
    ensures var r := SkipTo(s, chunk, q, pos);
      r.0 == Skip(s, q, |s.text|) && Tight(s, chunk, r.0, r.1)
    decreases |s.text| - pos
  {
    var at := Skip(s, q, pos);
    SkipOn(s, q, pos, |s.text|);
    if at == pos && pos < |s.text| {
      FilledIsTight(s, chunk, pos);
      SkipToIs(s, chunk, at, Least(pos + chunk, |s.text|));
    }
  }

  /** Every part of the value at `at` that the reader has tried failed to decode. */
  ghost predicate TriedInVain(s: Source, chunk: nat, at: nat, pos: nat)
    requires chunk > 0
  {
    && (pos == |s.text| || Boundary(chunk, pos))
    && (forall b: nat | at < b < pos && Boundary(chunk, b) :: Between(s, at, b).None?)
  }

  lemma {:induction false} NothingBetween(s: Source, chunk: nat, at: nat, pos: nat)
    requires chunk > 0 && pos < |s.text| && TriedInVain(s, chunk, at, pos)
    requires at < pos ==> Between(s, at, pos).None?
    ensures TriedInVain(s, chunk, at, Least(pos + chunk, |s.text|))
  {
    forall b: nat | at < b < Least(pos + chunk, |s.text|) && Boundary(chunk, b) ensures Between(s, at, b).None? {
      if b > pos {
        NextBoundary(chunk, pos, b);
      }
    }
  }

  /** One try that decodes. */
  lemma {:induction false} TryIs(s: Source, chunk: nat, at: nat, pos: nat)
    requires chunk > 0 && at < pos <= |s.text| && Steady(s, at) && TriedInVain(s, chunk, at, pos)
    ensures var t, d := Between(s, at, pos), Between(s, at, |s.text|);
      t.Some? ==>
        && d.Some?
        && (Uncut(s, chunk, at) ==> t == d && Tight(s, chunk, at + d.value.1, pos))
        && (!Uncut(s, chunk, at) && CutShows(s, at) ==> t.value.0 != d.value.0)
  {
    if Between(s, at, pos).Some? {
      var end := at + Between(s, at, |s.text|).value.1;
      assert Boundary(chunk, pos) && pos < end ==> Cuts(s, chunk, at, pos);
      if pos >= end {
        forall p: nat | end < p < pos ensures !Boundary(chunk, p) {
          assert Between(s, at, p).Some?;
        }
      } else {
        assert Boundary(chunk, pos);
      }
    }
  }

  /** The first part that decodes is the value itself exactly when no chunk cuts it. */
  lemma {:induction false} FirstTryIs(s: Source, chunk: nat, q: nat, pos: nat, at: nat)
    requires chunk > 0 && q <= pos <= |s.text| && at == Skip(s, q, |s.text|)
    requires Steady(s, at) && TriedInVain(s, chunk, at, pos)
    ensures var t, d := FirstTry(s, chunk, q, pos), Between(s, at, |s.text|);
      && (d.None? ==> t.value.None?)
      && (d.Some? && Uncut(s, chunk, at) ==>
            t.value == Some(d.value.0) && t.q == at + d.value.1 && Tight(s, chunk, t.q, t.pos))
      && (!Uncut(s, chunk, at) && CutShows(s, at) ==> t.value.Some? && t.value.value != d.value.0)
    decreases |s.text| - pos
  {
    var here := Skip(s, q, pos);
    SkipOn(s, q, pos, |s.text|);
    if here < pos {
      TryIs(s, chunk, at, pos);
    }
    if Between(s, here, pos).None? && pos < |s.text| {
      NothingBetween(s, chunk, at, pos);
      FirstTryIs(s, chunk, here, Least(pos + chunk, |s.text|), at);
    }
  }

  /** What the reader sees first from a place on is what stands first there. */
  lemma {:induction false} SeesTheSame(s: Source, chunk: nat, q: nat, pos: nat, c: char)
    requires chunk > 0 && Tight(s, chunk, q, pos)
    ensures var r := SkipTo(s, chunk, q, pos);
      && r.0 == Skip(s, q, |s.text|) && Tight(s, chunk, r.0, r.1)
      && (Sees(s, r.0, r.1, c) <==> Sees(s, r.0, |s.text|, c))
  {
    SkipToIs(s, chunk, q, pos);
  }

  /** The reader ends where the parse does, and the same way. */
  lemma {:induction false} EndIs(s: Source, chunk: nat, q: nat, pos: nat, first: bool)
    requires chunk > 0 && Tight(s, chunk, q, pos) && !HasValue(s, q, first)
    ensures Streamed(s, chunk, q, pos, first) == Parse(s, q, first)
  {
    SeesTheSame(s, chunk, q, pos, ']');
    SeesTheSame(s, chunk, q, pos, ',');
  }

  /** Where a value follows, the turn is an attempt to decode it. */
  lemma {:induction false} TurnIs(s: Source, chunk: nat, q: nat, pos: nat, first: bool) returns (q2: nat, upTo: nat)
    requires chunk > 0 && Tight(s, chunk, q, pos) && HasValue(s, q, first)
    ensures q2 <= upTo <= |s.text| && Skip(s, q2, |s.text|) == ValueAt(s, q, first)
    ensures TriedInVain(s, chunk, ValueAt(s, q, first), upTo)
    ensures var t := FirstTry(s, chunk, q2, upTo);
      NextOf(s, chunk, q, pos, first) ==
        Turn(if t.value.Some? then Yields(t.value.value) else Ended(Incomplete), t.q, t.pos)
  {
    SeesTheSame(s, chunk, q, pos, ']');
    SeesTheSame(s, chunk, q, pos, ',');
    var r := SkipTo(s, chunk, q, pos);
    q2, upTo := if first then r.0 else r.0 + 1, r.1;
    SkipOn(s, q, |s.text|, |s.text|);
  }

  /** A turn over a value no chunk cuts. */
  lemma {:induction false} NextIs(s: Source, chunk: nat, q: nat, pos: nat, first: bool, at: nat)
    requires chunk > 0 && Tight(s, chunk, q, pos) && HasValue(s, q, first) && at == ValueAt(s, q, first)
    requires Steady(s, at) && Uncut(s, chunk, at)
    ensures var r, d := NextOf(s, chunk, q, pos, first), Between(s, at, |s.text|);
      if d.None? then r.item == Ended(Incomplete)
      else r.item == Yields(d.value.0) && r.q == at + d.value.1 && Tight(s, chunk, r.q, r.pos)
  {
    var q2, upTo := TurnIs(s, chunk, q, pos, first);
    FirstTryIs(s, chunk, q2, upTo, at);
  }

  /** A turn over a value some chunk cuts. */
  lemma {:induction false} NextIsNot(s: Source, chunk: nat, q: nat, pos: nat, first: bool, at: nat)
    requires chunk > 0 && Tight(s, chunk, q, pos) && HasValue(s, q, first) && at == ValueAt(s, q, first)
    requires Steady(s, at) && CutShows(s, at) && !Uncut(s, chunk, at)
    ensures var item := NextOf(s, chunk, q, pos, first).item;
      item.Yields? && item.value != Between(s, at, |s.text|).value.0
  {
    var q2, upTo := TurnIs(s, chunk, q, pos, first);
    FirstTryIs(s, chunk, q2, upTo, at);
  }

  /** One step of the parse. */
  lemma {:induction false} ParseIs(s: Source, q: nat, first: bool, at: nat)
    requires q <= |s.text| && HasValue(s, q, first) && at == ValueAt(s, q, first)
    ensures var d := Between(s, at, |s.text|);
      && (d.None? ==> Parse(s, q, first) == Reading([], Incomplete))
      && (d.Some? ==> Parse(s, q, first) == After([d.value.0], Parse(s, at + d.value.1, false)))
  {
  }

  /** The first place, and the others. */
  lemma {:induction false} PlacesAre(s: Source, q: nat, first: bool, at: nat)
    requires q <= |s.text| && HasValue(s, q, first) && at == ValueAt(s, q, first)
    ensures var d := Between(s, at, |s.text|);
      Places(s, q, first) == {at} + if d.Some? then Places(s, at + d.value.1, false) else {}
  {
  }

  /** A turn that yields what the parse has leaves the rest to agree or not. */
  lemma {:induction false} SameTurn(s: Source, chunk: nat, q: nat, pos: nat, first: bool, v: Value, r: Turn)
    requires chunk > 0 && q <= pos <= |s.text| && r == NextOf(s, chunk, q, pos, first) && r.item == Yields(v)
    requires Parse(s, q, first) == After([v], Parse(s, r.q, false))
    ensures Streamed(s, chunk, q, pos, first) == Parse(s, q, first) <==>
      Streamed(s, chunk, r.q, r.pos, false) == Parse(s, r.q, false)
  {
    AfterSame(v, Streamed(s, chunk, r.q, r.pos, false), Parse(s, r.q, false));
  }

  /** A turn that yields another value than the parse has never comes to the same. */
  lemma {:induction false} OtherTurn(s: Source, chunk: nat, q: nat, pos: nat, first: bool, v: Value, more: Reading)
    requires chunk > 0 && q <= pos <= |s.text| && Parse(s, q, first) == After([v], more)
    requires var item := NextOf(s, chunk, q, pos, first).item; item.Yields? && item.value != v
    ensures Streamed(s, chunk, q, pos, first) != Parse(s, q, first)
  {
    var r := NextOf(s, chunk, q, pos, first);
    AfterDiffers(r.item.value, v, Streamed(s, chunk, r.q, r.pos, false), more);
  }

  lemma {:induction false} UncutTurn(s: Source, chunk: nat, q: nat, pos: nat, first: bool, at: nat) returns (r: Turn)
    requires chunk > 0 && Tight(s, chunk, q, pos) && HasValue(s, q, first) && at == ValueAt(s, q, first)
    requires Steady(s, at) && Uncut(s, chunk, at) && Between(s, at, |s.text|).Some?
    ensures Tight(s, chunk, r.q, r.pos) && r.q == at + Between(s, at, |s.text|).value.1
    ensures Streamed(s, chunk, q, pos, first) == Parse(s, q, first) <==>
      Streamed(s, chunk, r.q, r.pos, false) == Parse(s, r.q, false)
  {
    ParseIs(s, q, first, at);
    NextIs(s, chunk, q, pos, first, at);
    r := NextOf(s, chunk, q, pos, first);
    SameTurn(s, chunk, q, pos, first, r.item.value, r);
  }

  lemma {:induction false} FailedTurn(s: Source, chunk: nat, q: nat, pos: nat, first: bool, at: nat)
    requires chunk > 0 && Tight(s, chunk, q, pos) && HasValue(s, q, first) && at == ValueAt(s, q, first)
    requires Steady(s, at) && Uncut(s, chunk, at) && Between(s, at, |s.text|).None?
    ensures Streamed(s, chunk, q, pos, first) == Parse(s, q, first)
  {
    ParseIs(s, q, first, at);
    NextIs(s, chunk, q, pos, first, at);
  }

  lemma {:induction false} CutTurn(s: Source, chunk: nat, q: nat, pos: nat, first: bool, at: nat)
    requires chunk > 0 && Tight(s, chunk, q, pos) && HasValue(s, q, first) && at == ValueAt(s, q, first)
    requires Steady(s, at) && CutShows(s, at) && !Uncut(s, chunk, at)
    ensures Streamed(s, chunk, q, pos, first) != Parse(s, q, first)
  {
    ParseIs(s, q, first, at);
    NextIsNot(s, chunk, q, pos, first, at);
    var d := Between(s, at, |s.text|).value;
    OtherTurn(s, chunk, q, pos, first, d.0, Parse(s, at + d.1, false));
  }

  lemma {:induction false} PlaceIsIn(s: Source, q: nat, first: bool, at: nat, places: set<nat>)
    requires q <= |s.text| && HasValue(s, q, first) && at == ValueAt(s, q, first) && Places(s, q, first) <= places
    ensures at in places
  {
    PlacesAre(s, q, first, at);
  }

  lemma {:induction false} PlacesOn(s: Source, q: nat, first: bool, at: nat, next: nat, places: set<nat>)
    requires q <= |s.text| && HasValue(s, q, first) && at == ValueAt(s, q, first) && Places(s, q, first) <= places
    requires Between(s, at, |s.text|).Some? && next == at + Between(s, at, |s.text|).value.1
    ensures Places(s, next, false) <= places
    ensures forall cut | cut in Places(s, q, first) && cut != at :: cut in Places(s, next, false)
  {
    PlacesAre(s, q, first, at);
  }

  /** One turn where no value is cut. */
  lemma {:induction false} TurnUncut(s: Source, chunk: nat, q: nat, pos: nat, first: bool, places: set<nat>) returns (over: bool, r: Turn)
    requires chunk > 0 && Tight(s, chunk, q, pos) && Places(s, q, first) <= places
    requires AllSteady(s, places) && AllUncut(s, chunk, places)
    ensures over ==> Streamed(s, chunk, q, pos, first) == Parse(s, q, first)
    ensures !over ==> q < r.q && Tight(s, chunk, r.q, r.pos) && Places(s, r.q, false) <= places
    ensures !over ==>
      (Streamed(s, chunk, q, pos, first) == Parse(s, q, first) <==>
       Streamed(s, chunk, r.q, r.pos, false) == Parse(s, r.q, false))
  {
    over, r := true, NextOf(s, chunk, q, pos, first);
    if !HasValue(s, q, first) {
      EndIs(s, chunk, q, pos, first);
    } else {
      var at := ValueAt(s, q, first);
      PlaceIsIn(s, q, first, at, places);
      if Between(s, at, |s.text|).Some? {
        over := false;
        r := UncutTurn(s, chunk, q, pos, first, at);
        PlacesOn(s, q, first, at, r.q, places);
      } else {
        FailedTurn(s, chunk, q, pos, first, at);
      }
    }
  }

  /** From any place on, values no chunk cuts are read as they are in the whole text. */
  lemma {:induction false} UncutIsRead(s: Source, chunk: nat, q: nat, pos: nat, first: bool, places: set<nat>)
    requires chunk > 0 && Tight(s, chunk, q, pos) && Places(s, q, first) <= places
    requires AllSteady(s, places) && AllUncut(s, chunk, places)
    ensures Streamed(s, chunk, q, pos, first) == Parse(s, q, first)
    decreases |s.text| - q
  {
    var over, r := TurnUncut(s, chunk, q, pos, first, places);
    if !over {
      UncutIsRead(s, chunk, r.q, r.pos, false, places);
    }
  }

  lemma {:induction false} CutIsFurther(s: Source, chunk: nat, q: nat, first: bool, at: nat, cut: nat, b: nat)
    requires chunk > 0 && q <= |s.text| && HasValue(s, q, first) && at == ValueAt(s, q, first)
    requires Uncut(s, chunk, at) && cut in Places(s, q, first) && Cuts(s, chunk, cut, b)
    ensures Between(s, at, |s.text|).Some?
  {
    assert !Cuts(s, chunk, at, b);
    PlacesAre(s, q, first, at);
  }

  lemma {:induction false} TurnPast(s: Source, chunk: nat, q: nat, pos: nat, first: bool, places: set<nat>,
                                    at: nat, cut: nat, b: nat) returns (r: Turn)
    requires chunk > 0 && Tight(s, chunk, q, pos) && HasValue(s, q, first) && at == ValueAt(s, q, first)
    requires Steady(s, at) && Uncut(s, chunk, at) && Between(s, at, |s.text|).Some? && Places(s, q, first) <= places
    requires cut in Places(s, q, first) && Cuts(s, chunk, cut, b)
    ensures q < r.q && Tight(s, chunk, r.q, r.pos)
    ensures Places(s, r.q, false) <= places && cut in Places(s, r.q, false)
    ensures Streamed(s, chunk, q, pos, first) == Parse(s, q, first) <==>
      Streamed(s, chunk, r.q, r.pos, false) == Parse(s, r.q, false)
  {
    assert !Cuts(s, chunk, at, b);
    r := UncutTurn(s, chunk, q, pos, first, at);
    PlacesOn(s, q, first, at, r.q, places);
  }

  /** One turn on the way to a value some chunk cuts. */
  lemma {:induction false} TurnToCut(s: Source, chunk: nat, q: nat, pos: nat, first: bool, places: set<nat>,
                                     cut: nat, b: nat) returns (over: bool, r: Turn)
    requires chunk > 0 && Tight(s, chunk, q, pos) && Places(s, q, first) <= places
    requires AllSteady(s, places) && AllShow(s, places)
    requires cut in Places(s, q, first) && Cuts(s, chunk, cut, b)
    ensures over ==> Streamed(s, chunk, q, pos, first) != Parse(s, q, first)
    ensures !over ==> q < r.q && Tight(s, chunk, r.q, r.pos)
    ensures !over ==> Places(s, r.q, false) <= places && cut in Places(s, r.q, false)
    ensures !over ==>
      (Streamed(s, chunk, q, pos, first) == Parse(s, q, first) <==>
       Streamed(s, chunk, r.q, r.pos, false) == Parse(s, r.q, false))
  {
    var at := ValueAt(s, q, first);
    over, r := !Uncut(s, chunk, at), NextOf(s, chunk, q, pos, first);
    PlaceIsIn(s, q, first, at, places);
    if over {
      CutTurn(s, chunk, q, pos, first, at);
    } else {
      CutIsFurther(s, chunk, q, first, at, cut, b);
      r := TurnPast(s, chunk, q, pos, first, places, at, cut, b);
    }
  }

  /** Where such cuts show, a value some chunk cuts is not. */
  lemma {:induction false} CutIsMisread(s: Source, chunk: nat, q: nat, pos: nat, first: bool, places: set<nat>,
                                        cut: nat, b: nat)
    requires chunk > 0 && Tight(s, chunk, q, pos) && Places(s, q, first) <= places
    requires AllSteady(s, places) && AllShow(s, places)
    requires cut in Places(s, q, first) && Cuts(s, chunk, cut, b)
    ensures Streamed(s, chunk, q, pos, first) != Parse(s, q, first)
    decreases |s.text| - q
  {
    var over, r := TurnToCut(s, chunk, q, pos, first, places, cut, b);
    if !over {
      CutIsMisread(s, chunk, r.q, r.pos, false, places, cut, b);
    }
  }

  // ---- the whole file ---------------------------------------------------------------------------------

  /** The places the values of the text's array begin at. */
  ghost function ArrayPlaces(s: Source): set<nat> {
    if HoldsArray(s) then Places(s, Skip(s, 0, |s.text|) + 1, true) else {}
  }

  /** The first read brought nothing but blanks, though an array follows. */
  predicate BlankChunk(s: Source, chunk: nat) {
    var pos := Least(chunk, |s.text|);
    Skip(s, 0, pos) == pos && HoldsArray(s)
  }

  /** What the first read opens. */
  lemma {:induction false} OpensWhen(s: Source, chunk: nat)
    requires chunk > 0
    ensures var pos := Least(chunk, |s.text|);
      var at := Skip(s, 0, pos);
      && (Sees(s, at, pos, '[') <==> HoldsArray(s) && !BlankChunk(s, chunk))
      && (at < pos ==> at == Skip(s, 0, |s.text|) && Tight(s, chunk, at + 1, pos))
  {
    SkipOn(s, 0, Least(chunk, |s.text|), |s.text|);
    if |s.text| > 0 {
      FilledIsTight(s, chunk, 0);
      assert Boundary(chunk, chunk);
    }
  }

  /** A reading that has begun never says the text is no array. */
  lemma {:induction false} ParseIsNotRefused(s: Source, q: nat, first: bool)
    requires q <= |s.text|
    ensures Parse(s, q, first).ending != NotAnArray
    decreases |s.text| - q
  {
    if HasValue(s, q, first) {
      var at := ValueAt(s, q, first);
      if Between(s, at, |s.text|).Some? {
        ParseIsNotRefused(s, at + Between(s, at, |s.text|).value.1, false);
      }
    }
  }

  lemma {:induction false} StreamedIsNotRefused(s: Source, chunk: nat, q: nat, pos: nat, first: bool)
    requires chunk > 0 && q <= pos <= |s.text|
    ensures Streamed(s, chunk, q, pos, first).ending != NotAnArray
    decreases |s.text| - q
  {
    var r := NextOf(s, chunk, q, pos, first);
    if r.item.Yields? {
      StreamedIsNotRefused(s, chunk, r.q, r.pos, false);
    }
  }

  lemma {:induction false} IteratedIsRefused(s: Source, chunk: nat)
    requires chunk > 0
    ensures Iterated(s, chunk).ending == NotAnArray <==> BlankChunk(s, chunk) || !HoldsArray(s)
  {
    OpensWhen(s, chunk);
    var pos := Least(chunk, |s.text|);
    var at := Skip(s, 0, pos);
    if Sees(s, at, pos, '[') {
      StreamedIsNotRefused(s, chunk, at + 1, pos, true);
    }
  }

  /** When streaming reads an array, for any chunk size: if the first chunk is not blank before
      the array and no chunk cuts a value where what is before the cut decodes, and only then
      where such cuts show. */
  lemma {:induction false} IteratedAgrees(s: Source, chunk: nat)
    requires chunk > 0 && AllSteady(s, ArrayPlaces(s))
    ensures var same, uncut := Iterated(s, chunk) == Whole(s), AllUncut(s, chunk, ArrayPlaces(s));
      && (uncut ==> (same <==> !BlankChunk(s, chunk)))
      && (AllShow(s, ArrayPlaces(s)) ==> (same <==> !BlankChunk(s, chunk) && uncut))
  {
    IteratedIsRefused(s, chunk);
    OpensWhen(s, chunk);
    var pos, places := Least(chunk, |s.text|), ArrayPlaces(s);
    var at := Skip(s, 0, pos);
    if Sees(s, at, pos, '[') {
      if AllUncut(s, chunk, places) {
        UncutIsRead(s, chunk, at + 1, pos, true, places);
      } else if AllShow(s, places) {
        var cut :| cut in places && !Uncut(s, chunk, cut);
        var b: nat :| Cuts(s, chunk, cut, b);
        CutIsMisread(s, chunk, at + 1, pos, true, places, cut, b);
      }
    } else if HoldsArray(s) {
      ParseIsNotRefused(s, Skip(s, 0, |s.text|) + 1, true);
    }
  }

  /** So an array of values that delimit themselves is read the same for every chunk size whose
      first chunk is not blank. */
  lemma {:induction false} ChunkingDoesNotMatter(s: Source, chunk: nat)
    requires chunk > 0 && AllDelimit(s, ArrayPlaces(s))
    ensures Iterated(s, chunk) == Whole(s) <==> !BlankChunk(s, chunk)
  {
    assert forall at | at in ArrayPlaces(s) :: Delimits(s, at) ==> Steady(s, at) && Uncut(s, chunk, at);
    IteratedAgrees(s, chunk);
  }

  /** A number does not delimit itself: `[123]` read three characters at a time gives 12 and
      then no separator, where the text holds 123. */
  lemma {:induction false} ACutNumberIsMisread(j: Json, short: Value, long: Value)
    requires !j.space('[') && !j.space('1') && !j.space('3') && !j.space(']')
    requires Decode(j, "12") == Some((short, 2)) && Decode(j, "123]") == Some((long, 3))
    ensures Iterated(SourceOf(j, "[123]"), 3) == Reading([short], MissingSeparator)
    ensures Whole(SourceOf(j, "[123]")) == Reading([long], Finished)
  {
    var text := "[123]";
    var s := SourceOf(j, text);
    assert text[1..3] == "12" && text[1..5] == "123]";
    assert Skip(s, 0, 3) == 0 && Skip(s, 1, 3) == 1 && Skip(s, 3, 5) == 3 && Skip(s, 3, 3) == 3;
    assert Between(s, 1, 3) == Some((short, 2)) && Between(s, 1, 5) == Some((long, 3));
    assert NextOf(s, 3, 1, 3, true) == Turn(Yields(short), 3, 3) by {
      assert SkipTo(s, 3, 1, 3) == (1, 3);
      assert FirstTry(s, 3, 1, 3) == Tried(Some(short), 3, 3);
    }
    assert NextOf(s, 3, 3, 3, false) == Turn(Ended(MissingSeparator), 3, 5) by {
      assert SkipTo(s, 3, 3, 5) == (3, 5) && SkipTo(s, 3, 3, 3) == (3, 5);
    }
    assert Streamed(s, 3, 3, 3, false) == Reading([], MissingSeparator);
    assert Streamed(s, 3, 1, 3, true) == Reading([short], MissingSeparator);
    assert Skip(s, 0, 5) == 0 && Skip(s, 1, 5) == 1 && Skip(s, 4, 5) == 4 && Skip(s, 5, 5) == 5;
    assert Parse(s, 4, false) == Reading([], Finished);
  }

  lemma {:induction false} BlankToTheEnd(j: Json, text: string, q: nat, pos: nat)
    requires q <= pos <= |text|
    ensures Skip(SourceOf(j, text), q, |text|) == |text| <==> Strip(j, text[q..pos]) == [] && Strip(j, text[pos..]) == []
  {
    StripIsSkip(j, text, q, pos);
    StripFrom(j, text, pos);
    SkipOn(SourceOf(j, text), q, pos, |text|);
  }

  // ---- the stream --------------------------------------------------------------------------------

  /** The file being read: how far, what of it is buffered and where in the text that begins,
      and whether a read came back empty. */
  class Stream {
    const j: Json
    const text: string
    const chunk: nat
    var pos: nat
    var buffer: string
    ghost var from: nat
    ghost const s: Source
    var eof: bool

    /** What is buffered is the text up to where the file was read. */
    ghost predicate Valid()
      reads this
    {
      && chunk > 0 && from + |buffer| == pos <= |text| && (eof ==> pos == |text|)
      && s == SourceOf(j, text)
      && (forall i | 0 <= i < |buffer| :: buffer[i] == text[from+i])
    }

    constructor (json: Json, file: string, size: nat)
      requires size > 0
      ensures Valid() && j == json && text == file && chunk == size && pos == from == 0 && buffer == [] && !eof
    {
      j, text, chunk, s := json, file, size, SourceOf(json, file);
      pos, buffer, from, eof := 0, [], 0, false;
    }

    ghost function Left(): nat
      requires Valid()
      reads this
    {
      |text| - pos + if eof then 0 else 1
    }

    method Fill()
      requires Valid() && !eof
      modifies this
      ensures Valid() && from == old(from) && Left() < old(Left())
      ensures pos == Least(old(pos) + chunk, |text|)
    {
      var end := Least(pos + chunk, |text|);
      buffer := buffer + text[pos..end];
      eof := end == pos;
      pos := end;
    }

    /** `buffer.lstrip()` */
    method StripBuffer()
      requires Valid()
      modifies this`buffer, this`from
      ensures Valid() && from == Skip(s, old(from), pos)
    {
      assert buffer == text[from..pos];
      StripIsSkip(j, text, from, pos);
      buffer, from := Strip(j, buffer), Skip(s, from, pos);
    }

    method Drop(n: nat)
      requires Valid() && n <= |buffer|
      modifies this`buffer, this`from
      ensures Valid() && from == old(from) + n
    {
      buffer, from := buffer[n..], from + n;
    }

    /** `buffer.startswith(c)` */
    method StartsWith(c: char) returns (found: bool)
      requires Valid()
      ensures found <==> Sees(s, from, pos, c)
    {
      found := Starts(buffer, c);
    }

    /** `fill()` and `buffer.lstrip()` */
    method FillAndStrip()
      requires Valid() && !eof && from == Skip(s, from, pos)
      modifies this
      ensures Valid() && Left() < old(Left()) && pos == Least(old(pos) + chunk, |text|)
      ensures from == Skip(s, old(from), pos) == Skip(s, from, pos)
    {
      Fill();
      ghost var q := from;
      StripBuffer();
      SkipOn(s, q, pos, pos);
    }

    /** The first read, and the opening bracket. */
    method Open() returns (found: bool)
      requires Valid() && pos == 0 && !eof
      modifies this
      ensures Valid() && pos == Least(chunk, |text|)
      ensures var at := Skip(s, 0, pos);
        (found <==> Sees(s, at, pos, '[')) && from == if found then at + 1 else at
    {
      FillAndStrip();
      found := StartsWith('[');
      if found {
        Drop(1);
      }
    }

    /** Read on until something is there that is no blank, or the file ends. */
    method SkipBlanks()
      requires Valid()
      modifies this
      ensures Valid() && (from, pos) == SkipTo(s, chunk, old(from), old(pos))
    {
      ghost var goal := SkipTo(s, chunk, from, pos);
      SkipToStripped(s, chunk, from, pos);
      StripBuffer();
      while buffer == [] && !eof
        invariant Valid() && from == Skip(s, from, pos) && SkipTo(s, chunk, from, pos) == goal
        decreases Left()
      {
        SkipToFilled(s, chunk, from, pos);
        FillAndStrip();
      }
    }

    /** Decode the next value, reading on while the buffer is not enough. */
    method NextValue() returns (r: Option<Value>)
      requires Valid() && from == Skip(s, from, pos)
      modifies this
      ensures Valid()
      ensures var t := FirstTry(s, chunk, old(from), old(pos));
        r == t.value && (r.Some? ==> from == t.q && pos == t.pos)
    {
      ghost var goal := FirstTry(s, chunk, from, pos);
      while true
        invariant Valid() && from == Skip(s, from, pos) && FirstTry(s, chunk, from, pos) == goal
        decreases Left()
      {
        r := TakeValue();
        if r.Some? || eof {
          return;
        }
        TryFurther();
      }
    }

    /** The value the buffer begins with, if it decodes. */
    method TakeValue() returns (r: Option<Value>)
      requires Valid() && from == Skip(s, from, pos)
      modifies this`buffer, this`from
      ensures Valid()
      ensures var t := FirstTry(s, chunk, old(from), pos);
        if r.Some? then t == Tried(r, from, pos)
        else from == old(from) && buffer == old(buffer) && Between(s, from, pos).None? && (eof ==> t.value.None?)
    {
      DecodesBuffer();
      FirstTryOnce(s, chunk, from, pos);
      match Decode(j, buffer)
      case None => return None;
      case Some((v, end)) =>
        Drop(end);
        return Some(v);
    }

    method TryFurther()
      requires Valid() && !eof && from == Skip(s, from, pos) && Between(s, from, pos).None?
      modifies this
      ensures Valid() && Left() < old(Left()) && from == Skip(s, from, pos)
      ensures FirstTry(s, chunk, from, pos) == FirstTry(s, chunk, old(from), old(pos))
    {
      FirstTryFilled(s, chunk, from, pos);
      FillAndStrip();
    }

    lemma {:induction false} DecodesBuffer()
      requires Valid()
      ensures Decode(j, buffer) == Between(s, from, pos)
    {
      assert buffer == text[from..pos];
      DecodeAt(j, text, from, pos);
    }

    /** Past the separator, where one is due. */
    method PassSeparator(first: bool) returns (passed: bool)
      requires Valid()
      modifies this`buffer, this`from
      ensures Valid() && (passed <==> first || Sees(s, old(from), pos, ','))
      ensures passed ==> from == Skip(s, if first then old(from) else old(from) + 1, pos)
    {
      if !first {
        var comma := StartsWith(',');
        if !comma {
          return false;
        }
        Drop(1);
      }
      StripBuffer();
      return true;
    }

    /** One value, or the end of the array. */
    method NextItem(first: bool) returns (item: Item)
      requires Valid()
      modifies this
      ensures Valid()
      ensures var r := NextOf(s, chunk, old(from), old(pos), first);
        item == r.item && (item.Yields? ==> from == r.q && pos == r.pos)
    {
      ghost var q, was := from, pos;
      SkipBlanks();
      NextOfIs(s, chunk, q, was, first, from, pos);
      var closed := StartsWith(']');
      if closed {
        var trailing := Trailing();
        return Ended(if trailing then TrailingData else Finished);
      }
      var passed := PassSeparator(first);
      if !passed {
        return Ended(MissingSeparator);
      }
      var v := NextValue();
      return if v.None? then Ended(Incomplete) else Yields(v.value);
    }

    /** After the opening bracket: each value as it comes, to the end of the array. */
    method Values() returns (r: Reading)
      requires Valid()
      modifies this
      ensures r == Streamed(s, chunk, old(from), old(pos), true)
    {
      var yielded: seq<Value> := [];
      var first := true;
      ghost var whole := Streamed(s, chunk, from, pos, true);
      while true
        invariant Valid() && whole == After(yielded, Streamed(s, chunk, from, pos, first))
        decreases |text| - from
      {
        var item := NextItem(first);
        if item.Ended? {
          return Reading(yielded, item.ending);
        }
        AfterOne(yielded, item.value, Streamed(s, chunk, from, pos, false));
        yielded, first := yielded + [item.value], false;
      }
    }

    method ReadArray() returns (r: Reading)
      requires Valid() && pos == 0 && !eof
      modifies this
      ensures r == Iterated(s, chunk)
    {
      var open := Open();
      if !open {
        return Reading([], NotAnArray);
      }
      r := Values();
    }

    /** Whether anything but blanks follows the closing bracket: in the buffer, or in what is
        left of the file. */
    method Trailing() returns (found: bool)
      requires Valid() && buffer != []
      ensures found <==> Skip(s, from + 1, |text|) != |text|
    {
      assert buffer[1..] == text[from + 1..pos];
      BlankToTheEnd(j, text, from + 1, pos);
      found := Strip(j, buffer[1..]) != [] || Strip(j, text[pos..]) != [];
    }
  }

  lemma {:induction false} SkipToStripped(s: Source, chunk: nat, q: nat, pos: nat)
    requires chunk > 0 && q <= pos <= |s.text|
    ensures var at := Skip(s, q, pos);
      at == Skip(s, at, pos) && SkipTo(s, chunk, q, pos) == SkipTo(s, chunk, at, pos)
  {
    SkipOn(s, q, pos, pos);
  }

  lemma {:induction false} SkipToFilled(s: Source, chunk: nat, q: nat, pos: nat)
    requires chunk > 0 && q <= pos <= |s.text| && q == pos
    ensures var end := Least(pos + chunk, |s.text|);
      SkipTo(s, chunk, q, pos) == SkipTo(s, chunk, Skip(s, q, end), end)
  {
    SkipToStripped(s, chunk, q, Least(pos + chunk, |s.text|));
  }

  lemma {:induction false} FirstTryStripped(s: Source, chunk: nat, q: nat, pos: nat)
    requires chunk > 0 && q <= pos <= |s.text|
    ensures var at := Skip(s, q, pos);
      at == Skip(s, at, pos) && FirstTry(s, chunk, q, pos) == FirstTry(s, chunk, at, pos)
  {
    SkipOn(s, q, pos, pos);
  }

  /** One turn of the reader, once blanks are skipped. */
  lemma {:induction false} NextOfIs(s: Source, chunk: nat, q: nat, pos: nat, first: bool, at: nat, upTo: nat)
    requires chunk > 0 && q <= pos <= |s.text| && (at, upTo) == SkipTo(s, chunk, q, pos)
    ensures var r, n := NextOf(s, chunk, q, pos, first), |s.text|;
      if Sees(s, at, upTo, ']') then r.item == Ended(if Skip(s, at + 1, n) == n then Finished else TrailingData)
      else if !first && !Sees(s, at, upTo, ',') then r.item == Ended(MissingSeparator)
      else
        var t := FirstTry(s, chunk, Skip(s, if first then at else at + 1, upTo), upTo);
        r == Turn(if t.value.Some? then Yields(t.value.value) else Ended(Incomplete), t.q, t.pos)
  {
    if !Sees(s, at, upTo, ']') && (first || Sees(s, at, upTo, ',')) {
      FirstTryStripped(s, chunk, if first then at else at + 1, upTo);
    }
  }

  lemma {:induction false} FirstTryOnce(s: Source, chunk: nat, q: nat, pos: nat)
    requires chunk > 0 && q <= pos <= |s.text| && q == Skip(s, q, pos)
    ensures var d, t := Between(s, q, pos), FirstTry(s, chunk, q, pos);
      && (d.Some? ==> t == Tried(Some(d.value.0), q + d.value.1, pos))
      && (d.None? && pos == |s.text| ==> t.value.None?)
  {
  }

  lemma {:induction false} FirstTryFilled(s: Source, chunk: nat, q: nat, pos: nat)
    requires chunk > 0 && q <= pos <= |s.text| && q == Skip(s, q, pos) && Between(s, q, pos).None?
    ensures var end := Least(pos + chunk, |s.text|);
      FirstTry(s, chunk, q, pos) == FirstTry(s, chunk, Skip(s, q, end), end)
  {
    FirstTryStripped(s, chunk, q, Least(pos + chunk, |s.text|));
  }

  /** What the reading of a whole file comes to. */
  ghost predicate Comes(s: Source, chunk: nat, r: Reading)
    requires chunk > 0
  {
    var places, opens := ArrayPlaces(s), !BlankChunk(s, chunk);
    && (AllSteady(s, places) && AllUncut(s, chunk, places) ==> (r == Whole(s) <==> opens))
    && (AllSteady(s, places) && AllShow(s, places) ==> (r == Whole(s) <==> opens && AllUncut(s, chunk, places)))
    && (r.ending == NotAnArray <==> !HoldsArray(s) || !opens)
  }

  lemma {:induction false} IteratedComes(s: Source, chunk: nat)
    requires chunk > 0
    ensures Comes(s, chunk, Iterated(s, chunk))
  {
    IteratedIsRefused(s, chunk);
    if AllSteady(s, ArrayPlaces(s)) {
      IteratedAgrees(s, chunk);
    }
  }

  /** Stream an array. It ends for any decoder and any text, with what the chunked reading is. */
  method IterJsonArray(j: Json, text: string, chunk: nat) returns (r: Reading)
    requires chunk > 0
    ensures r == Iterated(SourceOf(j, text), chunk) && Comes(SourceOf(j, text), chunk, r)
  {
    var stream := new Stream(j, text, chunk);
    r := stream.ReadArray();
    IteratedComes(SourceOf(j, text), chunk);
  }

  // ---- what a finished reading means ------------------------------------------------------------

  /** A closing bracket and nothing but blanks after it. */
  predicate Closes(s: Source, at: nat) {
    at < |s.text| && s.text[at] == ']' && Skip(s, at + 1, |s.text|) == |s.text|
  }

  /** A text that ends before its array closes is rejected, whatever was yielded first: a
      finished reading's text ends with the closing bracket. */
  lemma {:induction false} TruncatedIsRejected(s: Source, q: nat, first: bool) returns (at: nat)
    requires q <= |s.text| && Parse(s, q, first).ending == Finished
    ensures q <= at && Closes(s, at)
    decreases |s.text| - q
  {
    at := Skip(s, q, |s.text|);
    if HasValue(s, q, first) {
      var value := ValueAt(s, q, first);
      at := TruncatedIsRejected(s, value + Between(s, value, |s.text|).value.1, false);
    }
  }

  // ---- a written array is read back -----------------------------------------------------------------

  function Lead(first: bool): string {
    if first then "" else ","
  }

  /** Values as they are written, each after the first behind a comma. */
  function Written(enc: Value -> string, vs: seq<Value>, i: nat): string
    requires i <= |vs|
    decreases |vs| - i
  {
    if i == |vs| then "]" else Lead(i == 0) + (enc(vs[i]) + Written(enc, vs, i + 1))
  }

  /** The decoder reads a written value back wherever a comma or a bracket follows it. */
  ghost predicate ReadsBack(j: Json, enc: Value -> string) {
    && (forall v :: enc(v) != [] && !j.space(enc(v)[0]) && enc(v)[0] != ']')
    && (forall v, t | Starts(t, ',') || Starts(t, ']') :: Decode(j, enc(v) + t) == Some((v, |enc(v)|)))
    && !j.space(',') && !j.space(']') && !j.space('[')
  }

  lemma {:induction false} WrittenStarts(enc: Value -> string, vs: seq<Value>, i: nat)
    requires 0 < i <= |vs|
    ensures Starts(Written(enc, vs, i), if i == |vs| then ']' else ',')
  {
  }

  /** Where a written value and more stand, the value is read and the more is left. */
  lemma {:induction false} ItemIsRead(j: Json, enc: Value -> string, text: string, at: nat, v: Value, more: string)
    requires ReadsBack(j, enc) && at <= |text| && text[at..] == enc(v) + more
    requires Starts(more, ',') || Starts(more, ']')
    ensures Between(SourceOf(j, text), at, |text|) == Some((v, |enc(v)|)) && text[at+|enc(v)|..] == more
    ensures at < |text| && text[at] == enc(v)[0]
  {
    DecodeAt(j, text, at, |text|);
    assert text[at] == text[at..][0];
    assert text[at+|enc(v)|..] == text[at..][|enc(v)|..];
  }

  /** A value is listed from `q` to `next`: behind a comma unless it is the first, with no blank
      before it. */
  predicate Listed(s: Source, first: bool, v: Value, q: nat, next: nat) {
    var at := if first then q else q + 1;
    && q < |s.text| && at < |s.text| && (first || s.text[q] == ',') && !s.space(s.text[at]) && s.text[at] != ']'
    && at < next && Between(s, at, |s.text|) == Some((v, next - at))
  }

  function Onward(vs: seq<Value>, i: nat): seq<Value>
    requires i <= |vs|
    decreases |vs| - i
  {
    if i == |vs| then [] else [vs[i]] + Onward(vs, i + 1)
  }

  lemma {:induction false} OnwardIs(vs: seq<Value>, i: nat)
    requires i <= |vs|
    ensures Onward(vs, i) == vs[i..]
    decreases |vs| - i
  {
    if i < |vs| {
      OnwardIs(vs, i + 1);
    }
  }

  lemma {:induction false} ListedIsRead(s: Source, vs: seq<Value>, i: nat, q: nat, next: nat)
    requires i < |vs| && Listed(s, i == 0, vs[i], q, next) && !s.space(',') && next <= |s.text|
    requires Parse(s, next, false) == Reading(Onward(vs, i + 1), Finished)
    ensures Parse(s, q, i == 0) == Reading(Onward(vs, i), Finished)
  {
  }

  lemma {:induction false} EndIsRead(s: Source, q: nat, first: bool)
    requires |s.text| == q + 1 && s.text[q] == ']' && !s.space(']')
    ensures Parse(s, q, first) == Reading([], Finished)
  {
  }

  /** Where a written value stands. */
  lemma {:induction false} ItemStands(j: Json, enc: Value -> string, text: string, q: nat, first: bool, v: Value, more: string)
    requires ReadsBack(j, enc) && (Starts(more, ',') || Starts(more, ']'))
    requires q <= |text| && text[q..] == Lead(first) + (enc(v) + more)
    ensures var at := if first then q else q + 1;
      && at < |text| && (first || text[q] == ',') && !j.space(text[at]) && text[at] != ']'
      && Between(SourceOf(j, text), at, |text|) == Some((v, |enc(v)|))
      && text[at+|enc(v)|..] == more
  {
    var at := if first then q else q + 1;
    assert text[at..] == enc(v) + more && (first || text[q] == ',') by {
      assert text[at..] == text[q..][at - q..];
      assert text[q] == text[q..][0];
    }
    ItemIsRead(j, enc, text, at, v, more);
  }

  lemma {:induction false} WrittenStep(j: Json, enc: Value -> string, vs: seq<Value>, i: nat, text: string, q: nat) returns (next: nat)
    requires i < |vs| && ReadsBack(j, enc) && q <= |text| && text[q..] == Written(enc, vs, i)
    ensures next <= |text| && text[next..] == Written(enc, vs, i + 1)
    ensures Listed(SourceOf(j, text), i == 0, vs[i], q, next)
  {
    WrittenStarts(enc, vs, i + 1);
    ItemStands(j, enc, text, q, i == 0, vs[i], Written(enc, vs, i + 1));
    next := (if i == 0 then q else q + 1) + |enc(vs[i])|;
  }

  lemma {:induction false} WrittenIsParsed(j: Json, enc: Value -> string, vs: seq<Value>, i: nat, text: string, q: nat)
    requires i <= |vs| && ReadsBack(j, enc) && q <= |text| && text[q..] == Written(enc, vs, i)
    ensures Parse(SourceOf(j, text), q, i == 0) == Reading(Onward(vs, i), Finished)
    decreases |vs| - i
  {
    var s := SourceOf(j, text);
    if i == |vs| {
      assert text[q] == text[q..][0];
      EndIsRead(s, q, i == 0);
    } else {
      var next := WrittenStep(j, enc, vs, i, text, q);
      WrittenIsParsed(j, enc, vs, i + 1, text, next);
      ListedIsRead(s, vs, i, q, next);
    }
  }

  /** An array written out is read back value for value. */
  lemma {:induction false} WrittenIsReadBack(j: Json, enc: Value -> string, vs: seq<Value>)
    requires ReadsBack(j, enc)
    ensures Whole(SourceOf(j, "[" + Written(enc, vs, 0))) == Reading(vs, Finished)
  {
    var text := "[" + Written(enc, vs, 0);
    assert text[1..] == Written(enc, vs, 0);
    OnwardIs(vs, 0);
    WrittenIsParsed(j, enc, vs, 0, text, 1);
  }
}
