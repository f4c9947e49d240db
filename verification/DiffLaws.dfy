/**
 What a diff row shows: the cached line at its index, the threads and the draft whose range reaches it, over
 exactly the requested rows that the file has.
 */
module DiffLaws {
  import opened Protocol
  import opened WindowedDiff

  // ---- one row --------------------------------------------------------------

  /** The row is line `line` of that side: unchanged and modified rows stand on both, the others on one. */
  predicate OnSide(row: Row, side: Side, line: nat) {
    match row
    case Context(left, right, _) => (side == Base && line == left) || (side == Head && line == right)
    case Modified(left, right, _) => (side == Base && line == left) || (side == Head && line == right)
    case Removed(left, _) => side == Base && line == left
    case Added(right, _) => side == Head && line == right
    case HunkHeader => false
    case Expander => false
    case WhitespaceOnly => false
  }

  /** A range is anchored at its last line and runs through those before it. */
  lemma {:induction false} RangeReaches(row: Row, range: Range)
    ensures PlaceIn(row, range) == Some(Anchored) <==> OnSide(row, range.side, range.end)
    ensures PlaceIn(row, range) == Some(Inside)
            <==> exists line: nat :: OnSide(row, range.side, line) && range.start <= line < range.end
  {
    if exists line: nat :: OnSide(row, range.side, line) {
      var line: nat :| OnSide(row, range.side, line);
      assert LineOn(row, range.side) == Some(line);
    } else if LineOn(row, range.side).Some? {
      assert OnSide(row, range.side, LineOn(row, range.side).value);
    }
  }

  /** Placements speak for themselves, in order; one on lines gives its thread to every row its range reaches. */
  lemma {:induction false} ThreadsInOrder(row: Row, a: seq<Placement>, b: seq<Placement>, p: Placement)
    ensures Threads(row, []) == [] && Threads(row, a + b) == Threads(row, a) + Threads(row, b)
    ensures Threads(row, [p]) ==
            if p.kind.OnFile? then []
            else if OnSide(row, p.kind.side, p.kind.end) then [RowThread(p.thread, p.kind.side, Anchored)]
            else if exists line: nat :: OnSide(row, p.kind.side, line) && p.kind.start <= line < p.kind.end
            then [RowThread(p.thread, p.kind.side, Inside)] else []
    decreases |b|
  {
    assert [p][..0] == [];
    if p.kind.OnLines? {
      RangeReaches(row, Range(p.kind.side, p.kind.start, p.kind.end));
    }
    if b == [] {
      assert a + b == a;
    } else {
      var init := b[..|b| - 1];
      assert (a + b)[..|a + b| - 1] == a + init && (a + b)[|a + b| - 1] == b[|b| - 1];
      ThreadsInOrder(row, a, init, p);
    }
  }

  // ---- the rows of a view ---------------------------------------------------

  /** The row shows the cached line at its index, inside the window. */
  predicate Shows(r: DiffRow, chunks: map<nat, seq<Row>>, size: nat, first: nat, last: nat, placements: seq<Placement>,
                  draft: Option<Range>)
    requires size > 0
  {
    && first <= r.index <= last && r.index / size in chunks && r.index % size < |chunks[r.index / size]|
    && r.row == chunks[r.index / size][r.index % size] && r.threads == Threads(r.row, placements)
    && r.drafted == (if draft.Some? && PlaceIn(r.row, draft.value).Some?
                     then Some((PlaceIn(r.row, draft.value).value, draft.value.side)) else None)
  }

  predicate AllShow(rows: seq<DiffRow>, chunks: map<nat, seq<Row>>, size: nat, first: nat, last: nat,
                    placements: seq<Placement>, draft: Option<Range>)
    requires size > 0
  {
    forall i | 0 <= i < |rows| :: Shows(rows[i], chunks, size, first, last, placements, draft)
  }

  lemma AllShowConcat(a: seq<DiffRow>, b: seq<DiffRow>, chunks: map<nat, seq<Row>>, size: nat, first: nat, last: nat,
                      placements: seq<Placement>, draft: Option<Range>)
    requires size > 0 && AllShow(a, chunks, size, first, last, placements, draft)
    requires AllShow(b, chunks, size, first, last, placements, draft)
    ensures AllShow(a + b, chunks, size, first, last, placements, draft)
  {
    hide Shows;
  }

  predicate Listed(rows: seq<DiffRow>, index: nat) { exists i :: 0 <= i < |rows| && rows[i].index == index }

  /** Row `j` of chunk `k`. */
  function At(k: nat, size: nat, j: nat): nat { k * size + j }

  /** The first `n` rows of chunk `k` are listed, as far as they are in the window. */
  ghost predicate Lists(rows: seq<DiffRow>, k: nat, size: nat, n: nat, first: nat, last: nat) {
    forall j: nat | j < n && InWindow(At(k, size, j), first, last) :: Listed(rows, At(k, size, j))
  }

  lemma ListedConcat(a: seq<DiffRow>, b: seq<DiffRow>, index: nat)
    ensures Listed(a, index) || Listed(b, index) ==> Listed(a + b, index)
  {
    if Listed(a, index) {
      var i :| 0 <= i < |a| && a[i].index == index;
      assert (a + b)[i].index == index;
    }
    if Listed(b, index) {
      var i :| 0 <= i < |b| && b[i].index == index;
      assert (a + b)[|a| + i].index == index;
    }
  }

  lemma ListsConcat(a: seq<DiffRow>, b: seq<DiffRow>, k: nat, size: nat, n: nat, first: nat, last: nat)
    requires Lists(a, k, size, n, first, last) || Lists(b, k, size, n, first, last)
    ensures Lists(a + b, k, size, n, first, last)
  {
    forall j: nat | j < n && InWindow(At(k, size, j), first, last)
      ensures Listed(a + b, At(k, size, j))
    {
      ListedConcat(a, b, At(k, size, j));
    }
  }

  lemma Below(n: nat, k: nat, size: nat)
    requires size > 0 && n < k * size
    ensures n / size < k
  {
    assert n == n / size * size + n % size;
    if n / size >= k {
      Monotone(k, n / size, size);
    }
  }

  lemma NotBelow(n: nat, k: nat, size: nat)
    requires size > 0 && k * size <= n
    ensures k <= n / size
  {
    assert n == n / size * size + n % size;
    assert (n / size + 1) * size == n / size * size + size;
    if n / size + 1 <= k {
      Monotone(n / size + 1, k, size);
    }
  }

  lemma InChunk(k: nat, size: nat, j: nat)
    requires size > 0 && j < size
    ensures At(k, size, j) / size == k && At(k, size, j) % size == j
  {
    var n := At(k, size, j);
    assert (k + 1) * size == k * size + size;
    Below(n, k + 1, size);
    NotBelow(n, k, size);
    assert n == n / size * size + n % size;
  }

  /** The rows of one chunk. */
  lemma {:induction false} PlacedShows(chunks: map<nat, seq<Row>>, size: nat, k: nat, n: nat, first: nat, last: nat,
                                      placements: seq<Placement>, draft: Option<Range>)
    requires size > 0 && k in chunks && n <= |chunks[k]| <= size
    ensures var rows := Placed(chunks[k][..n], k * size, first, last, placements, draft);
            AllShow(rows, chunks, size, first, last, placements, draft) && Lists(rows, k, size, n, first, last)
    decreases n
  {
    if n > 0 {
      hide Threads, PlaceIn, AllShow, Listed;
      var m: nat := n - 1;
      PlacedShows(chunks, size, k, m, first, last, placements, draft);
      InChunk(k, size, m);
      assert chunks[k][..n][..m] == chunks[k][..m];
      var before := Placed(chunks[k][..m], k * size, first, last, placements, draft);
      var here := [Shown(chunks[k][m], At(k, size, m), placements, draft)];
      if InWindow(At(k, size, m), first, last) {
        OneShows(here[0], chunks, size, first, last, placements, draft);
        AllShowConcat(before, here, chunks, size, first, last, placements, draft);
        ListsConcat(before, here, k, size, m, first, last);
        ListedConcat(before, here, At(k, size, m));
      }
    } else {
      assert chunks[k][..0] == [];
    }
  }

  lemma OneShows(r: DiffRow, chunks: map<nat, seq<Row>>, size: nat, first: nat, last: nat, placements: seq<Placement>,
                 draft: Option<Range>)
    requires size > 0 && Shows(r, chunks, size, first, last, placements, draft)
    ensures AllShow([r], chunks, size, first, last, placements, draft) && Listed([r], r.index)
  {
    assert [r][0].index == r.index;
  }

  lemma {:induction false} ChunksShow(chunks: map<nat, seq<Row>>, size: nat, a: nat, b: nat, first: nat, last: nat,
                                     placements: seq<Placement>, draft: Option<Range>)
    requires size > 0 && Bounded(chunks, size)
    ensures var rows := ChunkRows(chunks, size, a, b, first, last, placements, draft);
            && AllShow(rows, chunks, size, first, last, placements, draft)
            && forall k: nat | a <= k < b && k in chunks :: Lists(rows, k, size, |chunks[k]|, first, last)
    decreases b
  {
    if a < b {
      hide AllShow, Lists, Placed;
      var m: nat := b - 1;
      ChunksShow(chunks, size, a, m, first, last, placements, draft);
      if m in chunks {
        PlacedShows(chunks, size, m, |chunks[m]|, first, last, placements, draft);
        assert chunks[m][..|chunks[m]|] == chunks[m];
        var before := ChunkRows(chunks, size, a, m, first, last, placements, draft);
        var here := Placed(chunks[m], m * size, first, last, placements, draft);
        AllShowConcat(before, here, chunks, size, first, last, placements, draft);
        forall k: nat | a <= k < b && k in chunks
          ensures Lists(before + here, k, size, |chunks[k]|, first, last)
        {
          ListsConcat(before, here, k, size, |chunks[k]|, first, last);
        }
      }
    }
  }

  /** What the requested window comes to in a file of `total` rows. */
  ghost predicate Clipped(v: View, firstRow: nat, lastRow: nat, total: nat)
    requires total > 0
  {
    if firstRow <= lastRow && firstRow < total then
      forall r: nat :: InWindow(r, v.firstRow, v.lastRow) <==> InWindow(r, firstRow, lastRow) && r < total
    else v.firstRow == v.lastRow == (if lastRow < total then lastRow else total - 1)
  }

  /** The window is exactly the requested rows that the file has, or its nearest single row. */
  lemma {:induction false} WindowIsClipped(c: Cached, placements: seq<Placement>, firstRow: nat, lastRow: nat,
                                           draft: Option<Range>)
    ensures c.header == None ==> ViewOf(c, placements, firstRow, lastRow, draft) == None
    ensures c.header.Some? && (c.header.value.Opaque? || Blank(c.header.value)) ==>
              ViewOf(c, placements, firstRow, lastRow, draft) == Some(View(firstRow, lastRow, [], []))
    ensures c.header.Some? && c.header.value.Text? && !Blank(c.header.value) ==>
              var v := ViewOf(c, placements, firstRow, lastRow, draft);
              v.Some? && Clipped(v.value, firstRow, lastRow, c.header.value.totalRows)
  {
  }

  /**
   Every row of a view shows the cached line at its index with exactly the threads and draft that reach it,
   and every cached line of the window is shown.
   */
  lemma {:induction false} ViewShowsCache(c: Cached, placements: seq<Placement>, firstRow: nat, lastRow: nat,
                                          draft: Option<Range>)
    requires Regular(c)
    ensures var v, size := ViewOf(c, placements, firstRow, lastRow, draft).value, c.header.value.chunkRows;
            && AllShow(v.rows, c.chunks, size, v.firstRow, v.lastRow, placements, draft)
            && forall k: nat | k < c.header.value.chunkCount && k in c.chunks ::
                 Lists(v.rows, k, size, |c.chunks[k]|, v.firstRow, v.lastRow)
  {
    hide AllShow, Listed, ChunkRows;
    var t, v := c.header.value, ViewOf(c, placements, firstRow, lastRow, draft).value;
    var size, a, b := t.chunkRows, v.firstRow / t.chunkRows, Min(v.lastRow / t.chunkRows, t.chunkCount - 1) + 1;
    ChunksShow(c.chunks, size, a, b, v.firstRow, v.lastRow, placements, draft);
    forall k: nat | k < t.chunkCount && k in c.chunks
      ensures Lists(v.rows, k, size, |c.chunks[k]|, v.firstRow, v.lastRow)
    {
      if k < a {
        NoneFrom(v.rows, k, size, |c.chunks[k]|, v.firstRow, v.lastRow);
      } else if k >= b {
        NoneFrom(v.rows, k, size, |c.chunks[k]|, v.firstRow, v.lastRow);
      }
    }
  }

  /** A chunk outside the window has no rows in it. */
  lemma NoneFrom(rows: seq<DiffRow>, k: nat, size: nat, n: nat, first: nat, last: nat)
    requires size > 0 && n <= size && (k < first / size || last / size < k)
    ensures Lists(rows, k, size, n, first, last)
  {
    forall j: nat | j < n
      ensures !InWindow(At(k, size, j), first, last)
    {
      if k < first / size {
        BeforeWindow(k, size, first);
      } else {
        AfterWindow(k, size, last);
      }
    }
  }
}
