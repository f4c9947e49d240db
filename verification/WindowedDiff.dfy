/** The diff view over a window of rows, built from cached chunks, and the whole-file list it must agree with. */
module WindowedDiff {
  import opened Protocol

  const U32_MAX: nat := 0xFFFF_FFFF

  datatype Row =
    | Context(left: nat, right: nat, text: string)
    | Modified(left: nat, right: nat, text: string)
    | Removed(left: nat, text: string)
    | Added(right: nat, text: string)
    | HunkHeader | Expander | WhitespaceOnly

  datatype RowPlace = Anchored | Inside

  datatype PlacementKind = OnFile | OnLines(side: Side, start: nat, end: nat)

  datatype Placement = Placement(thread: ThreadId, kind: PlacementKind)

  datatype RowThread = RowThread(thread: ThreadId, side: Side, place: RowPlace)

  datatype Range = Range(side: Side, start: nat, end: nat)

  datatype DiffRow = DiffRow(index: nat, row: Row, threads: seq<RowThread>, drafted: Option<(RowPlace, Side)>)

  datatype Content = Text(chunkRows: nat, chunkCount: nat, totalRows: nat) | Opaque

  /** What the cache holds of one render. */
  datatype Cached = Cached(header: Option<Content>, chunks: map<nat, seq<Row>>)

  datatype View = View(firstRow: nat, lastRow: nat, rows: seq<DiffRow>, missing: seq<nat>)

  // ---- one row --------------------------------------------------------------

  function LineOn(row: Row, side: Side): Option<nat> {
    match row
    case Context(left, right, _) => Some(if side.Base? then left else right)
    case Modified(left, right, _) => Some(if side.Base? then left else right)
    case Removed(left, _) => if side.Base? then Some(left) else None
    case Added(right, _) => if side.Head? then Some(right) else None
    case _ => None
  }

  function PlaceIn(row: Row, range: Range): Option<RowPlace> {
    match LineOn(row, range.side)
    case None => None
    case Some(line) => if line == range.end then Some(Anchored) else if range.start <= line < range.end
        then Some(Inside) else None
  }

  /** The threads whose range reaches the row, in placement order. */
  function Threads(row: Row, placements: seq<Placement>): seq<RowThread> {
    if placements == [] then []
    else
      var before, p := Threads(row, placements[..|placements| - 1]), placements[|placements| - 1];
      if p.kind.OnFile? then before
      else
        match PlaceIn(row, Range(p.kind.side, p.kind.start, p.kind.end))
        case None => before
        case Some(place) => before + [RowThread(p.thread, p.kind.side, place)]
  }

  function Drafted(row: Row, draft: Option<Range>): Option<(RowPlace, Side)> {
    if draft.None? || PlaceIn(row, draft.value).None? then None
        else Some((PlaceIn(row, draft.value).value, draft.value.side))
  }

  function Shown(row: Row, index: nat, placements: seq<Placement>, draft: Option<Range>): DiffRow {
    DiffRow(index, row, Threads(row, placements), Drafted(row, draft))
  }

  // ---- rows of chunks -------------------------------------------------------

  predicate InWindow(index: nat, first: nat, last: nat) { first <= index <= last }

  /** The rows of one chunk inside the window. */
  function Placed(rows: seq<Row>, base: nat, first: nat, last: nat, placements: seq<Placement>,
                  draft: Option<Range>): seq<DiffRow> {
    if rows == [] then []
    else
      var n := |rows| - 1;
      var before := Placed(rows[..n], base, first, last, placements, draft);
      if InWindow(base + n, first, last) then before + [Shown(rows[n], base + n, placements, draft)] else before
  }

  /** The rows of chunks `a` up to `b` inside the window; chunks not cached are absent. */
  function ChunkRows(chunks: map<nat, seq<Row>>, size: nat, a: nat, b: nat, first: nat, last: nat,
                     placements: seq<Placement>,
                     draft: Option<Range>): seq<DiffRow>
    decreases b
  {
    if b <= a then []
    else
      var before := ChunkRows(chunks, size, a, b - 1, first, last, placements, draft);
      if b - 1 in chunks then before + Placed(chunks[b - 1], (b - 1) * size, first, last, placements, draft) else before
  }

  /** Every cached row of the file. */
  function WholeFile(c: Cached, placements: seq<Placement>): seq<DiffRow> {
    if c.header.None? || c.header.value.Opaque? then []
    else ChunkRows(c.chunks, c.header.value.chunkRows, 0, c.header.value.chunkCount, 0, U32_MAX, placements, None)
  }

  /** A list of rows restricted to a window. */
  function Restricted(rows: seq<DiffRow>, first: nat, last: nat): seq<DiffRow> {
    if rows == [] then []
    else
      var n := |rows| - 1;
      if InWindow(rows[n].index, first, last) then Restricted(rows[..n], first, last) + [rows[n]]
          else Restricted(rows[..n], first, last)
  }

  /** The rows without their draft marks. */
  function Undrafted(rows: seq<DiffRow>): seq<DiffRow> {
    seq(|rows|, i requires 0 <= i < |rows| => rows[i].(drafted := None))
  }

  // ---- the operations, with their loops -------------------------------------

  method PlaceRows(rows: seq<Row>, base: nat, first: nat, last: nat, placements: seq<Placement>, draft: Option<Range>,
                   out: seq<DiffRow>)
    returns (r: seq<DiffRow>)
    ensures r == out + Placed(rows, base, first, last, placements, draft)
  {
    r := out;
    for i := 0 to |rows|
      invariant r == out + Placed(rows[..i], base, first, last, placements, draft)
    {
      assert rows[..i + 1][..i] == rows[..i];
      var index := base + i;
      if index < first || index > last { continue; }
      var threads: seq<RowThread> := [];
      for k := 0 to |placements|
        invariant threads == Threads(rows[i], placements[..k])
      {
        assert placements[..k + 1][..k] == placements[..k];
        var p := placements[k];
        if p.kind.OnLines? {
          var place := PlaceIn(rows[i], Range(p.kind.side, p.kind.start, p.kind.end));
          if place.Some? { threads := threads + [RowThread(p.thread, p.kind.side, place.value)]; }
        }
      }
      assert placements[..|placements|] == placements;
      r := r + [DiffRow(index, rows[i], threads, Drafted(rows[i], draft))];
    }
    assert rows[..|rows|] == rows;
  }

  method AllRows(c: Cached, placements: seq<Placement>) returns (rows: seq<DiffRow>)
    ensures rows == WholeFile(c, placements)
  {
    rows := [];
    if c.header.None? || c.header.value.Opaque? { return; }
    var Text(size, count, _) := c.header.value;
    for ci := 0 to count
      invariant rows == ChunkRows(c.chunks, size, 0, ci, 0, U32_MAX, placements, None)
    {
      if ci in c.chunks {
        rows := PlaceRows(c.chunks[ci], ci * size, 0, U32_MAX, placements, None, rows);
      }
    }
  }

  /** The chunks of `a` up to `b` that are not cached. */
  function Absent(chunks: map<nat, seq<Row>>, a: nat, b: nat): seq<nat>
    decreases b
  {
    if b <= a then [] else if b - 1 in chunks then Absent(chunks, a, b - 1) else Absent(chunks, a, b - 1) + [b - 1]
  }

  predicate Blank(t: Content)
    requires t.Text?
  {
    t.chunkRows == 0 || t.chunkCount == 0 || t.totalRows == 0
  }

  function Min(a: nat, b: nat): nat { if a <= b then a else b }

  function LastRow(t: Content, last: nat): nat
    requires t.Text? && !Blank(t)
  {
    Min(last, t.totalRows - 1)
  }

  function FirstRow(t: Content, first: nat, last: nat): nat
    requires t.Text? && !Blank(t)
  {
    Min(first, LastRow(t, last))
  }

  /** The view over chunks `a` up to `b`. */
  function ViewOver(c: Cached, size: nat, a: nat, b: nat, first: nat, last: nat, placements: seq<Placement>,
                    draft: Option<Range>): View {
    View(first, last, ChunkRows(c.chunks, size, a, b, first, last, placements, draft), Absent(c.chunks, a, b))
  }

  function ViewOf(c: Cached, placements: seq<Placement>, firstRow: nat, lastRow: nat,
                  draft: Option<Range>): Option<View> {
    if c.header.None? then None
    else
      var t := c.header.value;
      if t.Opaque? || Blank(t) then Some(View(firstRow, lastRow, [], []))
      else
        var first, last := FirstRow(t, firstRow, lastRow), LastRow(t, lastRow);
        Some(ViewOver(c, t.chunkRows, first / t.chunkRows, Min(last / t.chunkRows, t.chunkCount - 1) + 1, first, last,
          placements, draft))
  }

  method DiffView(c: Cached, placements: seq<Placement>, firstRow: nat, lastRow: nat,
                  draft: Option<Range>) returns (view: Option<View>)
    ensures view == ViewOf(c, placements, firstRow, lastRow, draft)
  {
    if c.header.None? { return None; }
    if c.header.value.Opaque? { return Some(View(firstRow, lastRow, [], [])); }
    var Text(size, count, total) := c.header.value;
    if size == 0 || count == 0 || total == 0 { return Some(View(firstRow, lastRow, [], [])); }
    var last := Min(lastRow, total - 1);
    var first := Min(firstRow, last);
    var firstChunk := first / size;
    var lastChunk := Min(last / size, count - 1);
    var over := CollectChunks(c, size, firstChunk, lastChunk, first, last, placements, draft);
    return Some(over);
  }

  method CollectChunks(c: Cached, size: nat, a: nat, b: nat, first: nat, last: nat, placements: seq<Placement>,
                       draft: Option<Range>)
    returns (view: View)
    ensures view == ViewOver(c, size, a, b + 1, first, last, placements, draft)
  {
    var rows: seq<DiffRow>, missing: seq<nat>, ci: nat := [], [], a;
    while ci <= b
      invariant a <= ci && (ci <= b + 1 || ci == a)
      invariant rows == ChunkRows(c.chunks, size, a, ci, first, last, placements, draft)
      invariant missing == Absent(c.chunks, a, ci)
    {
      if ci in c.chunks {
        rows := PlaceRows(c.chunks[ci], ci * size, first, last, placements, draft, rows);
      } else {
        missing := missing + [ci];
      }
      ci := ci + 1;
    }
    if ci > b + 1 {
      NoChunks(c.chunks, size, a, b + 1, first, last, placements, draft);
    }
    view := View(first, last, rows, missing);
  }

  lemma NoChunks(chunks: map<nat, seq<Row>>, size: nat, a: nat, b: nat, first: nat, last: nat,
                 placements: seq<Placement>, draft: Option<Range>)
    requires b <= a
    ensures ChunkRows(chunks, size, a, b, first, last, placements, draft) == [] && Absent(chunks, a, b) == []
  {
  }

  // ---- restriction ----------------------------------------------------------

  lemma {:induction false} RestrictedConcat(a: seq<DiffRow>, b: seq<DiffRow>, first: nat, last: nat)
    ensures Restricted(a + b, first, last) == Restricted(a, first, last) + Restricted(b, first, last)
    decreases |b|
  {
    if b == [] {
      assert a + b == a;
    } else {
      var init := b[..|b| - 1];
      assert (a + b)[..|a + b| - 1] == a + init;
      RestrictedConcat(a, init, first, last);
    }
  }

  lemma {:induction false} RestrictedNone(rows: seq<DiffRow>, first: nat, last: nat)
    requires forall i | 0 <= i < |rows| :: !InWindow(rows[i].index, first, last)
    ensures Restricted(rows, first, last) == []
    decreases |rows|
  {
    if rows != [] {
      RestrictedNone(rows[..|rows| - 1], first, last);
    }
  }

  lemma UndraftedConcat(a: seq<DiffRow>, b: seq<DiffRow>)
    ensures Undrafted(a + b) == Undrafted(a) + Undrafted(b)
  {
  }

  /** Rows in file order, with indices from `low` up to `high`. */
  predicate Ascending(rows: seq<DiffRow>, low: nat, high: nat) {
    && (forall i | 0 <= i < |rows| :: low <= rows[i].index < high)
    && (forall i, j | 0 <= i < j < |rows| :: rows[i].index < rows[j].index)
  }

  lemma AscendConcat(a: seq<DiffRow>, b: seq<DiffRow>, low: nat, mid: nat, high: nat)
    requires Ascending(a, low, mid) && Ascending(b, mid, high) && low <= mid <= high
    ensures Ascending(a + b, low, high)
  {
  }

  lemma {:induction false} PlacedIndices(rows: seq<Row>, base: nat, first: nat, last: nat, placements: seq<Placement>,
                                         draft: Option<Range>)
    ensures Ascending(Placed(rows, base, first, last, placements, draft), base, base + |rows|)
    decreases |rows|
  {
    if rows != [] {
      var n := |rows| - 1;
      PlacedIndices(rows[..n], base, first, last, placements, draft);
      AscendConcat(Placed(rows[..n], base, first, last, placements, draft),
        [Shown(rows[n], base + n, placements, draft)], base, base + n, base + |rows|);
    }
  }

  /** Placing within a window is placing everything and restricting, but for the draft marks. */
  lemma {:induction false} PlacedRestricts(rows: seq<Row>, base: nat, first: nat, last: nat,
                                           placements: seq<Placement>, draft: Option<Range>)
    requires base + |rows| <= U32_MAX + 1
    ensures Undrafted(Placed(rows, base, first, last, placements, draft))
         == Restricted(Placed(rows, base, 0, U32_MAX, placements, None), first, last)
    decreases |rows|
  {
    if rows != [] {
      var n := |rows| - 1;
      PlacedRestricts(rows[..n], base, first, last, placements, draft);
      var all := Placed(rows[..n], base, 0, U32_MAX, placements, None);
      var row := Shown(rows[n], base + n, placements, None);
      assert (all + [row])[..|all|] == all;
      UndraftedConcat(Placed(rows[..n], base, first, last, placements, draft),
        [Shown(rows[n], base + n, placements, draft)]);
      assert Undrafted([Shown(rows[n], base + n, placements, draft)]) == [row];
    }
  }

  // ---- chunks ---------------------------------------------------------------

  predicate Bounded(chunks: map<nat, seq<Row>>, size: nat) { forall k | k in chunks :: |chunks[k]| <= size }

  lemma Monotone(a: nat, b: nat, size: nat)
    requires a <= b
    ensures a * size <= b * size
  {
  }

  lemma BeforeWindow(k: nat, size: nat, first: nat)
    requires size > 0 && k < first / size
    ensures k * size + size <= first
  {
    Monotone(k + 1, first / size, size);
    assert (k + 1) * size == k * size + size;
    assert first == first / size * size + first % size;
  }

  lemma AfterWindow(k: nat, size: nat, last: nat)
    requires size > 0 && k > last / size
    ensures k * size > last
  {
    var q := last / size;
    Monotone(q + 1, k, size);
    assert (q + 1) * size == q * size + size;
    assert last == q * size + last % size;
  }

  /** A chunk's rows that fall in the window come from a chunk of the window. */
  lemma OutsideChunk(rows: seq<Row>, k: nat, size: nat, first: nat, last: nat, placements: seq<Placement>)
    requires size > 0 && |rows| <= size && !(first / size <= k <= last / size)
    ensures Restricted(Placed(rows, k * size, 0, U32_MAX, placements, None), first, last) == []
  {
    PlacedIndices(rows, k * size, 0, U32_MAX, placements, None);
    if k < first / size {
      BeforeWindow(k, size, first);
    } else {
      AfterWindow(k, size, last);
    }
    RestrictedApart(Placed(rows, k * size, 0, U32_MAX, placements, None), k * size, k * size + |rows|, first, last);
  }

  lemma RestrictedApart(rows: seq<DiffRow>, low: nat, high: nat, first: nat, last: nat)
    requires Ascending(rows, low, high) && (high <= first || last < low)
    ensures Restricted(rows, first, last) == []
  {
    RestrictedNone(rows, first, last);
  }

  lemma {:induction false} ChunksRestrict(chunks: map<nat, seq<Row>>, size: nat, n: nat, first: nat, last: nat,
                                         placements: seq<Placement>, draft: Option<Range>)
    requires size > 0 && first <= last && Bounded(chunks, size) && n * size <= U32_MAX + 1
    ensures Restricted(ChunkRows(chunks, size, 0, n, 0, U32_MAX, placements, None), first, last)
         == Undrafted(ChunkRows(chunks, size, first / size, Min(n, last / size + 1), first, last, placements, draft))
    decreases n
  {
    hide Placed, Restricted, Undrafted;
    NoRows(first, last);
    if n > 0 {
      var k, fc, lc := n - 1, first / size, last / size;
      Monotone(k, n, size);
      assert n * size == k * size + size;
      ChunksRestrict(chunks, size, k, first, last, placements, draft);
      if k in chunks {
        var whole := Placed(chunks[k], k * size, 0, U32_MAX, placements, None);
        RestrictedConcat(ChunkRows(chunks, size, 0, k, 0, U32_MAX, placements, None), whole, first, last);
        if fc <= k <= lc {
          OneMoreChunk(chunks, size, fc, k, first, last, placements, draft);
        } else {
          OutsideChunk(chunks[k], k, size, first, last, placements);
        }
      }
    }
  }

  lemma NoRows(first: nat, last: nat)
    ensures Restricted([], first, last) == [] && Undrafted([]) == []
  {
  }

  lemma OneMoreChunk(chunks: map<nat, seq<Row>>, size: nat, fc: nat, k: nat, first: nat, last: nat,
                     placements: seq<Placement>, draft: Option<Range>)
    requires k in chunks && k * size + |chunks[k]| <= U32_MAX + 1 && fc <= k
    ensures Undrafted(ChunkRows(chunks, size, fc, k + 1, first, last, placements, draft))
         == Undrafted(ChunkRows(chunks, size, fc, k, first, last, placements, draft))
          + Restricted(Placed(chunks[k], k * size, 0, U32_MAX, placements, None), first, last)
  {
    hide Placed, Restricted, Undrafted;
    var before, here := ChunkRows(chunks, size, fc, k, first, last, placements, draft),
        Placed(chunks[k], k * size, first, last, placements, draft);
    assert ChunkRows(chunks, size, fc, k + 1, first, last, placements, draft) == before + here;
    PlacedRestricts(chunks[k], k * size, first, last, placements, draft);
    UndraftedConcat(before, here);
  }

  lemma AscendWiden(rows: seq<DiffRow>, low: nat, high: nat, higher: nat)
    requires Ascending(rows, low, high) && high <= higher
    ensures Ascending(rows, low, higher)
  {
  }

  /** Rows come in file order. */
  lemma {:induction false} ChunkRowsAscend(chunks: map<nat, seq<Row>>, size: nat, a: nat, b: nat, first: nat, last: nat,
                                          placements: seq<Placement>, draft: Option<Range>)
    requires Bounded(chunks, size)
    ensures Ascending(ChunkRows(chunks, size, a, b, first, last, placements, draft), 0, b * size)
    decreases b
  {
    hide Placed;
    if b > a {
      var k := b - 1;
      var before, base, high := ChunkRows(chunks, size, a, k, first, last, placements, draft), k * size, b * size;
      ChunkRowsAscend(chunks, size, a, k, first, last, placements, draft);
      assert high == base + size;
      if k in chunks {
        var here := Placed(chunks[k], base, first, last, placements, draft);
        PlacedIndices(chunks[k], base, first, last, placements, draft);
        AscendWiden(here, base, base + |chunks[k]|, high);
        AscendConcat(before, here, 0, base, high);
      } else {
        AscendWiden(before, 0, base, high);
      }
    }
  }

  lemma {:induction false} AbsentIs(chunks: map<nat, seq<Row>>, a: nat, b: nat)
    ensures forall k :: k in Absent(chunks, a, b) <==> a <= k < b && k !in chunks
    decreases b
  {
    if b > a {
      AbsentIs(chunks, a, b - 1);
    }
  }

  lemma {:induction false} AbsentAscends(chunks: map<nat, seq<Row>>, a: nat, b: nat)
    ensures forall i, j | 0 <= i < j < |Absent(chunks, a, b)| :: Absent(chunks, a, b)[i] < Absent(chunks, a, b)[j]
    ensures forall i | 0 <= i < |Absent(chunks, a, b)| :: Absent(chunks, a, b)[i] < b
    decreases b
  {
    if b > a {
      AbsentAscends(chunks, a, b - 1);
    }
  }

  // ---- the theorems ---------------------------------------------------------

  /** A text render whose rows are all addressable, with no chunk longer than the chunk size. */
  predicate Regular(c: Cached) {
    && c.header.Some? && c.header.value.Text? && !Blank(c.header.value)
    && Bounded(c.chunks, c.header.value.chunkRows)
       && c.header.value.chunkCount * c.header.value.chunkRows <= U32_MAX + 1
  }

  /** The view's rows, without draft marks, are the whole file's rows restricted to the clamped window. */
  lemma {:induction false} WindowIsFilteredWhole(c: Cached, placements: seq<Placement>, firstRow: nat, lastRow: nat,
                                                 draft: Option<Range>)
    requires Regular(c)
    ensures var v := ViewOf(c, placements, firstRow, lastRow, draft).value;
            Undrafted(v.rows) == Restricted(WholeFile(c, placements), v.firstRow, v.lastRow)
  {
    var t := c.header.value;
    var first, last := FirstRow(t, firstRow, lastRow), LastRow(t, lastRow);
    ChunksRestrict(c.chunks, t.chunkRows, t.chunkCount, first, last, placements, draft);
    assert Min(t.chunkCount, last / t.chunkRows + 1) == Min(last / t.chunkRows, t.chunkCount - 1) + 1;
  }

  /** Row indices strictly increase, and the window is the requested one clamped to the file. */
  lemma {:induction false} IndicesIncrease(c: Cached, placements: seq<Placement>, firstRow: nat, lastRow: nat,
                                           draft: Option<Range>)
    requires Regular(c)
    ensures var v := ViewOf(c, placements, firstRow, lastRow, draft).value;
            && v.firstRow <= v.lastRow < c.header.value.totalRows && v.firstRow <= firstRow && v.lastRow <= lastRow
            && forall i, j | 0 <= i < j < |v.rows| :: v.rows[i].index < v.rows[j].index
  {
    var t := c.header.value;
    var first, last := FirstRow(t, firstRow, lastRow), LastRow(t, lastRow);
    ChunkRowsAscend(c.chunks, t.chunkRows, first / t.chunkRows, Min(last / t.chunkRows, t.chunkCount - 1) + 1, first,
      last, placements, draft);
  }

  /** `missing` lists exactly the window's chunks that are not cached, in order. */
  lemma {:induction false} MissingIsExact(c: Cached, placements: seq<Placement>, firstRow: nat, lastRow: nat,
                                          draft: Option<Range>)
    requires Regular(c)
    ensures var v, t := ViewOf(c, placements, firstRow, lastRow, draft).value, c.header.value;
            && (forall k :: k in v.missing <==>
                  v.firstRow / t.chunkRows <= k <= v.lastRow / t.chunkRows && k < t.chunkCount && k !in c.chunks)
            && forall i, j | 0 <= i < j < |v.missing| :: v.missing[i] < v.missing[j]
  {
    var t := c.header.value;
    var first, last := FirstRow(t, firstRow, lastRow), LastRow(t, lastRow);
    AbsentIs(c.chunks, first / t.chunkRows, Min(last / t.chunkRows, t.chunkCount - 1) + 1);
    AbsentAscends(c.chunks, first / t.chunkRows, Min(last / t.chunkRows, t.chunkCount - 1) + 1);
  }

  function Max(a: nat, b: nat): nat { if a <= b then b else a }

  /** Every index from `low` up to `high`, once. */
  predicate Consecutive(rows: seq<DiffRow>, low: nat, high: nat) {
    |rows| == Max(low, high) - low && forall i | 0 <= i < |rows| :: rows[i].index == low + i
  }

  lemma {:induction false} PlacedConsecutive(rows: seq<Row>, base: nat, first: nat, last: nat,
                                             placements: seq<Placement>, draft: Option<Range>)
    ensures Consecutive(Placed(rows, base, first, last, placements, draft), Max(base, first),
            Min(base + |rows|, last + 1))
    decreases |rows|
  {
    if rows != [] {
      PlacedConsecutive(rows[..|rows| - 1], base, first, last, placements, draft);
    }
  }

  /** A chunk that holds all its rows of the file. */
  predicate Full(chunks: map<nat, seq<Row>>, size: nat, total: nat, k: nat) {
    k in chunks && |chunks[k]| == if (k + 1) * size <= total then size else Max(total, k * size) - k * size
  }

  lemma {:induction false} FullChunksCover(chunks: map<nat, seq<Row>>, size: nat, total: nat, a: nat, b: nat,
                                           first: nat, last: nat,
                                          placements: seq<Placement>, draft: Option<Range>)
    requires a <= b && a * size <= first <= last < total && forall k | a <= k < b :: Full(chunks, size, total, k)
    ensures Consecutive(ChunkRows(chunks, size, a, b, first, last, placements, draft), first, Min(b * size, last + 1))
    decreases b
  {
    if a < b {
      var k := b - 1;
      assert b * size == k * size + size;
      FullChunksCover(chunks, size, total, a, k, first, last, placements, draft);
      assert Full(chunks, size, total, k);
      PlacedConsecutive(chunks[k], k * size, first, last, placements, draft);
    }
  }

  lemma CeilingCovers(size: nat, total: nat, last: nat)
    requires size > 0 && last < total
    ensures last / size * size <= last < (last / size + 1) * size
  {
    assert last == last / size * size + last % size;
    assert (last / size + 1) * size == last / size * size + size;
  }

  /** With full chunks and none missing, every row of the window appears. */
  lemma {:induction false} NothingMissingShowsAll(c: Cached, placements: seq<Placement>, firstRow: nat, lastRow: nat,
                                                  draft: Option<Range>)
    requires Regular(c) && c.header.value.totalRows <= c.header.value.chunkCount * c.header.value.chunkRows
    requires forall k | k in c.chunks && k < c.header.value.chunkCount ::
             Full(c.chunks, c.header.value.chunkRows, c.header.value.totalRows, k)
    requires ViewOf(c, placements, firstRow, lastRow, draft).value.missing == []
    ensures var v := ViewOf(c, placements, firstRow, lastRow, draft).value;
            |v.rows| == v.lastRow - v.firstRow + 1 && forall i | 0 <= i < |v.rows| :: v.rows[i].index == v.firstRow + i
  {
    var t := c.header.value;
    CoverWindow(c.chunks, t, FirstRow(t, firstRow, lastRow), LastRow(t, lastRow), placements, draft);
  }

  lemma CoverWindow(chunks: map<nat, seq<Row>>, t: Content, first: nat, last: nat, placements: seq<Placement>,
                    draft: Option<Range>)
    requires t.Text? && !Blank(t) && first <= last < t.totalRows <= t.chunkCount * t.chunkRows
    requires forall k | k in chunks && k < t.chunkCount :: Full(chunks, t.chunkRows, t.totalRows, k)
    requires Absent(chunks, first / t.chunkRows, Min(last / t.chunkRows, t.chunkCount - 1) + 1) == []
    ensures Consecutive(ChunkRows(chunks, t.chunkRows, first / t.chunkRows,
            Min(last / t.chunkRows, t.chunkCount - 1) + 1, first, last, placements, draft),
                        first, last + 1)
  {
    hide ChunkRows, Absent, Full, Consecutive;
    var size := t.chunkRows;
    var a, b := first / size, Min(last / size, t.chunkCount - 1) + 1;
    WindowChunks(first, last, size, t.chunkCount);
    CeilingCovers(size, t.totalRows, first);
    CeilingCovers(size, t.totalRows, last);
    AbsentIs(chunks, a, b);
    AllCached(chunks, a, b);
    FullChunksCover(chunks, size, t.totalRows, a, b, first, last, placements, draft);
  }

  lemma AllCached(chunks: map<nat, seq<Row>>, a: nat, b: nat)
    requires Absent(chunks, a, b) == []
    ensures forall k | a <= k < b :: k in chunks
  {
    AbsentIs(chunks, a, b);
    assert forall k :: k !in Absent(chunks, a, b);
  }

  /** The last chunk of the window exists, so its end is past the window. */
  lemma WindowChunks(first: nat, last: nat, size: nat, count: nat)
    requires size > 0 && count > 0 && first <= last < count * size
    ensures first / size <= last / size < count
  {
    assert first == first / size * size + first % size;
    assert last == last / size * size + last % size;
    if last / size < first / size {
      AfterWindow(first / size, size, last);
    }
    if count <= last / size {
      Monotone(count, last / size, size);
    }
  }
}
