/**
 * The playfield: 15 rows of 10 cells, each -1 (empty) or a piece kind.
 * Grid-level specification of line clearing, and the in-place row
 * operations on the board array that the line clear is built from.
 */
module Board {
  import opened Shapes

  const Height: int := 15
  const Width: int := 10
  const Empty: int := -1

  type Grid = seq<seq<int>>

  predicate IsGrid(g: Grid) {
    |g| == Height && forall r :: 0 <= r < Height ==> |g[r]| == Width
  }

  /** Every cell is empty or holds a kind. */
  predicate WellFormed(g: Grid) {
    IsGrid(g) &&
    forall r, c :: 0 <= r < Height && 0 <= c < Width ==> g[r][c] == Empty || 0 <= g[r][c] < 7
  }

  function EmptyRow(): (row: seq<int>)
    ensures |row| == Width && forall c :: 0 <= c < Width ==> row[c] == Empty
  {
    seq(Width, _ => Empty)
  }

  function EmptyRows(n: nat): (rows: seq<seq<int>>)
    ensures |rows| == n && forall r :: 0 <= r < n ==> rows[r] == EmptyRow()
  {
    seq(n, _ => EmptyRow())
  }

  function EmptyGrid(): (g: Grid)
    ensures WellFormed(g)
  {
    EmptyRows(Height)
  }

  /** A row with no empty cell. */
  predicate RowFull(row: seq<int>) {
    forall c :: 0 <= c < |row| ==> row[c] != Empty
  }

  /** How many of the rows are full. */
  function FullCount(rows: seq<seq<int>>): nat {
    if |rows| == 0 then 0
    else FullCount(rows[..|rows| - 1]) + (if RowFull(rows[|rows| - 1]) then 1 else 0)
  }

  /** The rows that are not full, in their original order. */
  function NonFull(rows: seq<seq<int>>): seq<seq<int>> {
    if |rows| == 0 then []
    else NonFull(rows[..|rows| - 1]) + (if RowFull(rows[|rows| - 1]) then [] else [rows[|rows| - 1]])
  }

  /** Every row is either counted as full or kept. */
  lemma {:induction false} FullCountSplit(rows: seq<seq<int>>)
    ensures FullCount(rows) + |NonFull(rows)| == |rows|
  {
    if |rows| > 0 {
      FullCountSplit(rows[..|rows| - 1]);
    }
  }

  /** Every kept row is not full and is a row of the input. */
  lemma {:induction false} NonFullKeepsRows(rows: seq<seq<int>>)
    ensures forall k :: 0 <= k < |NonFull(rows)| ==> !RowFull(NonFull(rows)[k]) && NonFull(rows)[k] in rows
  {
    if |rows| > 0 {
      NonFullKeepsRows(rows[..|rows| - 1]);
      var front := rows[..|rows| - 1];
      forall k | 0 <= k < |NonFull(front)| ensures NonFull(front)[k] in rows {
        assert NonFull(front)[k] in front;
      }
    }
  }

  /** The board after checklines: one empty row per full row among rows 1..14,
      then the original row 0, then the rows 1..14 that were not full. */
  function ClearLines(g: Grid): (h: Grid)
    requires IsGrid(g)
    ensures IsGrid(h)
  {
    var rest := g[1..];
    FullCountSplit(rest);
    NonFullKeepsRows(rest);
    EmptyRows(FullCount(rest)) + [g[0]] + NonFull(rest)
  }

  /** Points for the number of lines cleared by one lock. */
  function LineScore(lines: int): (s: int)
    ensures 0 <= s <= 800
    ensures s > 0 <==> 1 <= lines <= 4
  {
    if lines == 1 then 100
    else if lines == 2 then 300
    else if lines == 3 then 500
    else if lines == 4 then 800
    else 0
  }

  /** Removing full row i: rows 0..i-1 move down one, row 0 becomes empty. */
  function RemovedRow(g: Grid, i: int): (h: Grid)
    requires IsGrid(g) && 0 <= i < Height
    ensures IsGrid(h)
  {
    [EmptyRow()] + g[..i] + g[i + 1..]
  }

  /** Every kept row has the width of the rows it comes from. */
  lemma {:induction false} NonFullWidth(rows: seq<seq<int>>)
    requires forall r :: 0 <= r < |rows| ==> |rows[r]| == Width
    ensures forall k :: 0 <= k < |NonFull(rows)| ==> |NonFull(rows)[k]| == Width
  {
    if |rows| > 0 {
      NonFullWidth(rows[..|rows| - 1]);
    }
  }

  /** Rows 0..i-1 once the scan has handled rows 1..i-1. */
  function Settled(g: Grid, i: int): (a: seq<seq<int>>)
    requires IsGrid(g) && 1 <= i <= Height
    ensures |a| == i && forall r :: 0 <= r < i ==> |a[r]| == Width
  {
    var s := g[1..i];
    FullCountSplit(s);
    NonFullWidth(s);
    EmptyRows(FullCount(s)) + [g[0]] + NonFull(s)
  }

  /** The board after the scan has handled rows 1..i-1. */
  function Scanned(g: Grid, i: int): (h: Grid)
    requires IsGrid(g) && 1 <= i <= Height
    ensures IsGrid(h) && h[i..] == g[i..]
  {
    Settled(g, i) + g[i..]
  }

  lemma ScanStart(g: Grid)
    requires IsGrid(g)
    ensures Scanned(g, 1) == g
  {
    assert g[1..1] == [];
    assert [g[0]] + g[1..] == g;
  }

  lemma ScanEnd(g: Grid)
    requires IsGrid(g)
    ensures Scanned(g, Height) == ClearLines(g)
  {
    assert g[1..Height] == g[1..];
  }

  /** One step of the scan: row i is still the original row i, and the scan
      either removes it (when full) or leaves the board as it is. */
  lemma ScanStep(g: Grid, i: int)
    requires IsGrid(g) && 1 <= i < Height
    ensures Scanned(g, i)[i] == g[i]
    ensures Scanned(g, i + 1) == if RowFull(g[i]) then RemovedRow(Scanned(g, i), i) else Scanned(g, i)
  {
    var s, s' := g[1..i], g[1..i + 1];
    assert s'[..|s'| - 1] == s && s'[|s'| - 1] == g[i];
    var a := Settled(g, i);
    var h := a + g[i..];
    assert h[i] == g[i];
    if RowFull(g[i]) {
      assert EmptyRows(FullCount(s) + 1) == [EmptyRow()] + EmptyRows(FullCount(s));
      assert Settled(g, i + 1) == [EmptyRow()] + a;
      assert h[..i] == a;
      assert h[i + 1..] == g[i + 1..] by {
        assert h[i + 1..] == g[i..][1..];
      }
    } else {
      assert Settled(g, i + 1) == a + [g[i]];
      assert [g[i]] + g[i + 1..] == g[i..];
    }
  }

  /** Scanning rows k..m-1 that are not full changes nothing. */
  lemma {:induction false} ScanQuiet(g: Grid, k: int, m: int)
    requires IsGrid(g) && 1 <= k <= m <= Height
    requires forall r :: k <= r < m ==> !RowFull(g[r])
    ensures Scanned(g, m) == Scanned(g, k) && FullCount(g[1..m]) == FullCount(g[1..k])
    decreases m - k
  {
    if k < m {
      ScanStep(g, k);
      assert !RowFull(g[k]);
      assert Scanned(g, k + 1) == Scanned(g, k);
      var s' := g[1..k + 1];
      assert s'[..k - 1] == g[1..k] && s'[k - 1] == g[k];
      assert FullCount(s') == FullCount(g[1..k]);
      ScanQuiet(g, k + 1, m);
    }
  }

  /** With no full row among rows 1..14 the board is left as it is. */
  lemma ClearLinesNoneFull(g: Grid)
    requires IsGrid(g)
    requires forall r :: 1 <= r < Height ==> !RowFull(g[r])
    ensures ClearLines(g) == g && FullCount(g[1..]) == 0
  {
    ScanStart(g);
    ScanQuiet(g, 1, Height);
    ScanEnd(g);
    assert g[1..Height] == g[1..] && g[1..1] == [];
  }

  /** When row i is the only full row among rows 1..14, the rows above it
      move down one, row 0 becomes empty and the rows below stay put. */
  lemma ClearLinesSingle(g: Grid, i: int)
    requires IsGrid(g) && 1 <= i < Height && RowFull(g[i])
    requires forall r :: 1 <= r < Height && r != i ==> !RowFull(g[r])
    ensures ClearLines(g) == RemovedRow(g, i) && FullCount(g[1..]) == 1
  {
    ScanStart(g);
    ScanQuiet(g, 1, i);
    assert g[1..1] == [];
    ScanStep(g, i);
    assert g[1..i + 1][..i - 1] == g[1..i];
    ScanQuiet(g, i + 1, Height);
    ScanEnd(g);
    assert g[1..Height] == g[1..];
  }

  /** Line clearing keeps every cell empty or a kind. */
  lemma ClearLinesWellFormed(g: Grid)
    requires WellFormed(g)
    ensures WellFormed(ClearLines(g))
  {
    var rest := g[1..];
    FullCountSplit(rest);
    NonFullKeepsRows(rest);
    var h := ClearLines(g);
    var c := FullCount(rest);
    forall r, col | 0 <= r < Height && 0 <= col < Width ensures h[r][col] == Empty || 0 <= h[r][col] < 7 {
      if r > c {
        assert h[r] == NonFull(rest)[r - c - 1];
        assert h[r] in rest;
      }
    }
  }

  /** The grid held by a 15x10 board array. */
  function Cells(a: array2<int>): (g: Grid)
    reads a
    requires a.Length0 == Height && a.Length1 == Width
    ensures IsGrid(g)
    ensures forall r, c :: 0 <= r < Height && 0 <= c < Width ==> g[r][c] == a[r, c]
  {
    seq(Height, r reads a requires 0 <= r < Height => seq(Width, c reads a requires 0 <= c < Width => a[r, c]))
  }

  /** Two grids with the same cells are equal. */
  lemma GridExt(g: Grid, h: Grid)
    requires IsGrid(g) && IsGrid(h)
    requires forall r, c :: 0 <= r < Height && 0 <= c < Width ==> g[r][c] == h[r][c]
    ensures g == h
  {
    forall r | 0 <= r < Height ensures g[r] == h[r] {
      assert forall c :: 0 <= c < Width ==> g[r][c] == h[r][c];
    }
  }

  /** Set every cell of row r to empty. */
  method ClearRow(a: array2<int>, r: int)
    requires a.Length0 == Height && a.Length1 == Width && 0 <= r < Height
    modifies a
    ensures forall i, c :: 0 <= i < Height && 0 <= c < Width ==>
      a[i, c] == if i == r then Empty else old(a[i, c])
  {
    var j := 0;
    while j < Width
      invariant 0 <= j <= Width
      invariant forall i, c :: 0 <= i < Height && 0 <= c < Width ==>
        a[i, c] == if i == r && c < j then Empty else old(a[i, c])
    {
      a[r, j] := Empty;
      j := j + 1;
    }
  }

  /** Copy row src over row dst. */
  method CopyRow(a: array2<int>, dst: int, src: int)
    requires a.Length0 == Height && a.Length1 == Width
    requires 0 <= dst < Height && 0 <= src < Height && dst != src
    modifies a
    ensures forall i, c :: 0 <= i < Height && 0 <= c < Width ==>
      a[i, c] == if i == dst then old(a[src, c]) else old(a[i, c])
  {
    var k := 0;
    while k < Width
      invariant 0 <= k <= Width
      invariant forall i, c :: 0 <= i < Height && 0 <= c < Width ==>
        a[i, c] == if i == dst && c < k then old(a[src, c]) else old(a[i, c])
    {
      a[dst, k] := a[src, k];
      k := k + 1;
    }
  }

  /** Remove full row i in place: clear it, copy each row above it one row
      down, from row i up to row 1, and clear row 0. */
  method RemoveRow(a: array2<int>, i: int)
    requires a.Length0 == Height && a.Length1 == Width && 1 <= i < Height
    modifies a
    ensures Cells(a) == RemovedRow(old(Cells(a)), i)
  {
    ghost var g := Cells(a);
    ClearRow(a, i);
    var j := i;
    while j > 0
      invariant 0 <= j <= i
      invariant forall r, c :: 0 <= r < Height && 0 <= c < Width ==>
        a[r, c] == if r > i then g[r][c]
                   else if r > j then g[r - 1][c]
                   else if r == i then Empty
                   else g[r][c]
    {
      CopyRow(a, j, j - 1);
      j := j - 1;
    }
    ClearRow(a, 0);
    GridExt(Cells(a), RemovedRow(g, i));
  }

  /** Empty every cell of the board. */
  method ClearGrid(a: array2<int>)
    requires a.Length0 == Height && a.Length1 == Width
    modifies a
    ensures Cells(a) == EmptyGrid()
  {
    var i := 0;
    while i < Height
      invariant 0 <= i <= Height
      invariant forall r, c :: 0 <= r < i && 0 <= c < Width ==> a[r, c] == Empty
    {
      var j := 0;
      while j < Width
        invariant 0 <= j <= Width
        invariant forall r, c :: 0 <= r < i && 0 <= c < Width ==> a[r, c] == Empty
        invariant forall c :: 0 <= c < j ==> a[i, c] == Empty
      {
        a[i, j] := Empty;
        j := j + 1;
      }
      i := i + 1;
    }
    GridExt(Cells(a), EmptyGrid());
  }

  /** Does the board array hold a full row r? */
  method IsLine(a: array2<int>, r: int) returns (line: bool)
    requires a.Length0 == Height && a.Length1 == Width && 0 <= r < Height
    ensures line == RowFull(Cells(a)[r])
  {
    line := true;
    var j := 0;
    while j < Width
      invariant 0 <= j <= Width
      invariant forall c :: 0 <= c < j ==> a[r, c] != Empty
    {
      if a[r, j] == Empty {
        line := false;
        break;
      }
      j := j + 1;
    }
  }

  /** The scan of checklines: rows 1..14 top to bottom, each full row removed
      as it is found; the result is the number of rows removed. */
  method RemoveFullRows(a: array2<int>) returns (numLines: nat)
    requires a.Length0 == Height && a.Length1 == Width
    modifies a
    ensures Cells(a) == ClearLines(old(Cells(a)))
    ensures numLines == FullCount(old(Cells(a))[1..])
  {
    ghost var g := Cells(a);
    ScanStart(g);
    numLines := 0;
    var i := 1;
    while i < Height
      invariant 1 <= i <= Height
      invariant Cells(a) == Scanned(g, i)
      invariant numLines == FullCount(g[1..i])
    {
      ScanStep(g, i);
      var line := IsLine(a, i);
      if line {
        numLines := numLines + 1;
        RemoveRow(a, i);
      }
      assert g[1..i + 1][..i - 1] == g[1..i];
      i := i + 1;
    }
    ScanEnd(g);
    assert g[1..Height] == g[1..];
  }
}
