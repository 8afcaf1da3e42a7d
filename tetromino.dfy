/**
 * A falling piece: kind, rotation, pixel position, the four cell offsets in
 * pixels and their bounding box. Moves and rotations are tentative and are
 * undone on collision; a fall that collides is undone and the piece is
 * written into the board.
 */
module Pieces {
  import opened Shapes
  import opened Board

  /** Pixel size of the play area. */
  const FieldWidth: int := 160
  const FieldHeight: int := 240

  /** Where pieces are shown outside the play area. */
  const PreviewX: int := 10 * BlockSize + 50
  const NextY: int := 25
  const HoldY: int := 105

  predicate Aligned(x: int, y: int) {
    x % BlockSize == 0 && y % BlockSize == 0
  }

  /** The pixel bounds test of checkcollision, on the bounding box of kind k in rotation r at (x, y). */
  predicate OutOfBounds(k: Kind, r: int, x: int, y: int)
    requires 0 <= r < 4
  {
    var (left, right, top, bottom) := Box(k, r);
    x + BlockSize * right >= FieldWidth || y + BlockSize * bottom >= FieldHeight ||
    x + BlockSize * left < 0 || y + BlockSize * top < 0
  }

  /** Board column and row of cell i of kind k in rotation r at pixel position (x, y). */
  function CellCol(k: Kind, r: int, x: int, i: int): int
    requires 0 <= r < 4 && 0 <= i < 4
  {
    x / BlockSize + Shape(k, r)[i].0
  }

  function CellRow(k: Kind, r: int, y: int, i: int): int
    requires 0 <= r < 4 && 0 <= i < 4
  {
    y / BlockSize + Shape(k, r)[i].1
  }

  /** On the grid, the pixel bounds test passes exactly when all four cells lie on the board. */
  lemma InBoundsCells(k: Kind, r: int, x: int, y: int)
    requires 0 <= r < 4 && Aligned(x, y)
    ensures !OutOfBounds(k, r, x, y) <==>
      forall i :: 0 <= i < 4 ==>
        0 <= CellCol(k, r, x, i) < Width && 0 <= CellRow(k, r, y, i) < Height
  {
    BoxIsExtents(k, r);
    ExtentsTight(k, r);
    ExtentsInBox(k, r);
    var qx, qy := x / BlockSize, y / BlockSize;
    assert x == BlockSize * qx && y == BlockSize * qy;
    if !OutOfBounds(k, r, x, y) {
      forall i | 0 <= i < 4
        ensures 0 <= CellCol(k, r, x, i) < Width && 0 <= CellRow(k, r, y, i) < Height
      {
      }
    }
    if forall i :: 0 <= i < 4 ==> 0 <= CellCol(k, r, x, i) < Width && 0 <= CellRow(k, r, y, i) < Height {
      var a :| 0 <= a < 4 && Shape(k, r)[a].0 == MaxCol(k, r);
      var b :| 0 <= b < 4 && Shape(k, r)[b].1 == MaxRow(k, r);
      var c :| 0 <= c < 4 && Shape(k, r)[c].0 == MinCol(k, r);
      var d :| 0 <= d < 4 && Shape(k, r)[d].1 == MinRow(k, r);
      assert CellCol(k, r, x, a) < Width && CellRow(k, r, y, b) < Height;
      assert CellCol(k, r, x, c) >= 0 && CellRow(k, r, y, d) >= 0;
    }
  }

  /** Board cell (row, col) exists and is not empty. */
  predicate Occupied(g: Grid, row: int, col: int)
    requires IsGrid(g)
  {
    0 <= row < Height && 0 <= col < Width && g[row][col] != Empty
  }

  /** checkcollision: out of the play area, or one of the four cells already occupied. */
  predicate Collides(g: Grid, k: Kind, r: int, x: int, y: int)
    requires IsGrid(g) && 0 <= r < 4 && Aligned(x, y)
  {
    OutOfBounds(k, r, x, y) ||
    exists i :: 0 <= i < 4 && Occupied(g, CellRow(k, r, y, i), CellCol(k, r, x, i))
  }

  /** A piece collides unless all four of its cells lie on the board and are empty. */
  lemma CollisionFreeIff(g: Grid, k: Kind, r: int, x: int, y: int)
    requires IsGrid(g) && 0 <= r < 4 && Aligned(x, y)
    ensures !Collides(g, k, r, x, y) <==>
      forall i :: 0 <= i < 4 ==>
        0 <= CellRow(k, r, y, i) < Height && 0 <= CellCol(k, r, x, i) < Width &&
        g[CellRow(k, r, y, i)][CellCol(k, r, x, i)] == Empty
  {
    InBoundsCells(k, r, x, y);
  }

  /** The first n cells of the piece include board cell (row, col). */
  predicate IsPieceCell(k: Kind, r: int, x: int, y: int, row: int, col: int, n: int)
    requires 0 <= r < 4 && 0 <= n <= 4
  {
    exists i :: 0 <= i < n && CellRow(k, r, y, i) == row && CellCol(k, r, x, i) == col
  }

  /** setblocks: the board with the piece's four cells set to its kind, every other cell as it was. */
  function Locked(g: Grid, k: Kind, r: int, x: int, y: int): (h: Grid)
    requires IsGrid(g) && 0 <= r < 4
    ensures IsGrid(h)
    ensures forall row, col :: 0 <= row < Height && 0 <= col < Width ==>
      h[row][col] == if IsPieceCell(k, r, x, y, row, col, 4) then k else g[row][col]
  {
    seq(Height, row requires 0 <= row < Height =>
      seq(Width, col requires 0 <= col < Width =>
        if IsPieceCell(k, r, x, y, row, col, 4) then k else g[row][col]))
  }

  /** Locking a piece keeps every cell empty or a kind. */
  lemma LockedWellFormed(g: Grid, k: Kind, r: int, x: int, y: int)
    requires WellFormed(g) && 0 <= r < 4
    ensures WellFormed(Locked(g, k, r, x, y))
  {
  }

  /** The row (in pixels) where a dropped piece comes to rest: the first
      position, going down in steps of one cell, whose next step collides. */
  function RestY(g: Grid, k: Kind, r: int, x: int, y: int): int
    requires IsGrid(g) && 0 <= r < 4 && Aligned(x, y) && !OutOfBounds(k, r, x, y)
    decreases FieldHeight - y
  {
    if Collides(g, k, r, x, y + BlockSize) then y else RestY(g, k, r, x, y + BlockSize)
  }

  /** The resting row is on or below the start, on the grid, inside the play
      area, and the row below it collides. */
  lemma {:induction false} RestYStops(g: Grid, k: Kind, r: int, x: int, y: int)
    requires IsGrid(g) && 0 <= r < 4 && Aligned(x, y) && !OutOfBounds(k, r, x, y)
    ensures var ry := RestY(g, k, r, x, y);
      y <= ry && Aligned(x, ry) && !OutOfBounds(k, r, x, ry) && Collides(g, k, r, x, ry + BlockSize)
    decreases FieldHeight - y
  {
    if !Collides(g, k, r, x, y + BlockSize) {
      RestYStops(g, k, r, x, y + BlockSize);
    }
  }

  /** Every row a dropped piece passes on the way to its resting row is free. */
  lemma {:induction false} RestYPassesFree(g: Grid, k: Kind, r: int, x: int, y: int, yy: int)
    requires IsGrid(g) && 0 <= r < 4 && Aligned(x, y) && !OutOfBounds(k, r, x, y)
    requires y < yy <= RestY(g, k, r, x, y) && yy % BlockSize == 0
    ensures !Collides(g, k, r, x, yy)
    decreases FieldHeight - y
  {
    assert !Collides(g, k, r, x, y + BlockSize);
    if yy != y + BlockSize {
      assert RestY(g, k, r, x, y) == RestY(g, k, r, x, y + BlockSize);
      RestYPassesFree(g, k, r, x, y + BlockSize, yy);
    }
  }

  /** Cells that bound all four cells of an entry are its extremes. */
  lemma ExtremesAt(k: Kind, r: int, lo: int, hi: int, top: int, bottom: int)
    requires 0 <= r < 4 && 0 <= lo < 4 && 0 <= hi < 4 && 0 <= top < 4 && 0 <= bottom < 4
    requires forall j :: 0 <= j < 4 ==>
      Shape(k, r)[lo].0 <= Shape(k, r)[j].0 <= Shape(k, r)[hi].0 &&
      Shape(k, r)[top].1 <= Shape(k, r)[j].1 <= Shape(k, r)[bottom].1
    ensures MinCol(k, r) == Shape(k, r)[lo].0 && MaxCol(k, r) == Shape(k, r)[hi].0
    ensures MinRow(k, r) == Shape(k, r)[top].1 && MaxRow(k, r) == Shape(k, r)[bottom].1
  {
    ExtentsTight(k, r);
  }

  /** One rotation step as rotate computes it: add -1 (left) or +1 (right),
      then fold back into 0..3. */
  function Turned(r: int, left: bool): (t: int)
    requires 0 <= r < 4
    ensures 0 <= t < 4 && t == (r + (if left then -1 else 1)) % 4
  {
    var t := r + (if left then -1 else 1);
    if t < 0 then t + 4 else if t > 3 then t - 4 else t
  }

  /** Turning left undoes turning right and vice versa; four turns the same way return. */
  lemma TurnedInverse(r: int)
    requires 0 <= r < 4
    ensures Turned(Turned(r, true), false) == r && Turned(Turned(r, false), true) == r
    ensures Turned(Turned(Turned(Turned(r, true), true), true), true) == r
  {
  }

  /** The horizontal step of move: 16 - 32 * left pixels. */
  function Shift(left: bool): int {
    BlockSize - 2 * BlockSize * (if left then 1 else 0)
  }

  /** The loop of moveblocks: write the pixel offsets of the four cells into
      `offsets` and track the smallest and largest offset on each axis, starting
      from 9999 and 0. The ghost results name cells that attain the extremes. */
  method ScaleCells(offsets: array2<int>, cells: seq<Cell>)
      returns (left: int, top: int, right: int, bottom: int, ghost l: int, ghost t: int, ghost r: int, ghost b: int)
    requires offsets.Length0 == 4 && offsets.Length1 == 2 && |cells| == 4
    requires forall j :: 0 <= j < 4 ==> 0 <= cells[j].0 <= 3 && 0 <= cells[j].1 <= 3
    modifies offsets
    ensures forall j :: 0 <= j < 4 ==> offsets[j, 0] == 16 * cells[j].0 && offsets[j, 1] == 16 * cells[j].1
    ensures 0 <= l < 4 && 0 <= r < 4 && 0 <= t < 4 && 0 <= b < 4
    ensures left == 16 * cells[l].0 && right == 16 * cells[r].0 && top == 16 * cells[t].1 && bottom == 16 * cells[b].1
    ensures forall j :: 0 <= j < 4 ==> cells[l].0 <= cells[j].0 <= cells[r].0 && cells[t].1 <= cells[j].1 <= cells[b].1
  {
    left, top, right, bottom := 9999, 9999, 0, 0;
    l, t, r, b := 0, 0, 0, 0;
    var i := 0;
    while i < 4
      invariant 0 <= i <= 4
      invariant forall j :: 0 <= j < i ==> offsets[j, 0] == 16 * cells[j].0 && offsets[j, 1] == 16 * cells[j].1
      invariant i == 0 ==> left == 9999 && top == 9999 && right == 0 && bottom == 0
      invariant i > 0 ==> 0 <= l < i && 0 <= r < i && left == 16 * cells[l].0 && right == 16 * cells[r].0
      invariant i > 0 ==> 0 <= t < i && 0 <= b < i && top == 16 * cells[t].1 && bottom == 16 * cells[b].1
      invariant forall j :: 0 <= j < i ==> cells[l].0 <= cells[j].0 <= cells[r].0
      invariant forall j :: 0 <= j < i ==> cells[t].1 <= cells[j].1 <= cells[b].1
    {
      var ox := cells[i].0 * BlockSize;
      var oy := cells[i].1 * BlockSize;
      offsets[i, 0] := ox;
      if ox < left {
        left, l := ox, i;
      }
      if ox + BlockSize > right {
        right, r := ox, i;
      }
      offsets[i, 1] := oy;
      if oy < top {
        top, t := oy, i;
      }
      if oy + BlockSize > bottom {
        bottom, b := oy, i;
      }
      i := i + 1;
    }
  }

  /** A piece as a value: its kind, pixel position and rotation state. The
      offsets and the bounding box a Tetromino keeps follow from these. */
  datatype Piece = Piece(kind: Kind, x: int, y: int, rotation: int)

  /** On the grid, in a rotation state, and inside the play area. */
  predicate Inside(p: Piece) {
    0 <= p.rotation < 4 && Aligned(p.x, p.y) && !OutOfBounds(p.kind, p.rotation, p.x, p.y)
  }

  /** checkcollision of a piece value against a board. */
  predicate Hits(g: Grid, p: Piece)
    requires IsGrid(g) && 0 <= p.rotation < 4 && Aligned(p.x, p.y)
  {
    Collides(g, p.kind, p.rotation, p.x, p.y)
  }

  /** What move does to a piece: one cell sideways, or, if the piece would
      collide there, nothing. */
  function Moved(g: Grid, p: Piece, left: bool): (q: Piece)
    requires IsGrid(g) && 0 <= p.rotation < 4 && Aligned(p.x, p.y)
    ensures q.kind == p.kind && q.y == p.y && q.rotation == p.rotation && Aligned(q.x, q.y)
    ensures q.x == p.x + Shift(left) <==> !Hits(g, p.(x := p.x + Shift(left)))
    ensures q.x != p.x + Shift(left) ==> q == p
    ensures Inside(p) ==> Inside(q)
    ensures !Hits(g, p) ==> !Hits(g, q)
  {
    var s := p.(x := p.x + Shift(left));
    if Hits(g, s) then p else s
  }

  /** What rotate does to a piece: one rotation step, or, if the piece would
      collide in the new state, nothing. */
  function Rotated(g: Grid, p: Piece, left: bool): (q: Piece)
    requires IsGrid(g) && 0 <= p.rotation < 4 && Aligned(p.x, p.y)
    ensures q.kind == p.kind && q.x == p.x && q.y == p.y && 0 <= q.rotation < 4
    ensures q.rotation == Turned(p.rotation, left) <==> !Hits(g, p.(rotation := Turned(p.rotation, left)))
    ensures q.rotation != Turned(p.rotation, left) ==> q == p
    ensures Inside(p) ==> Inside(q)
    ensures !Hits(g, p) ==> !Hits(g, q)
  {
    var s := p.(rotation := Turned(p.rotation, left));
    if Hits(g, s) then p else s
  }

  /** What fall does to a piece: whether it locks, and where it ends. A piece
      that does not lock is one cell lower and collision free; one that locks
      stays where it is. */
  function Fallen(g: Grid, p: Piece): (r: (bool, Piece))
    requires IsGrid(g) && Inside(p)
    ensures Inside(r.1) && r.1.kind == p.kind && r.1.x == p.x && r.1.rotation == p.rotation
    ensures r.0 <==> Hits(g, p.(y := p.y + BlockSize))
    ensures r.0 ==> r.1 == p
    ensures !r.0 ==> r.1.y == p.y + BlockSize && !Hits(g, r.1)
  {
    var s := p.(y := p.y + BlockSize);
    if Hits(g, s) then (true, p) else (false, s)
  }

  /** Where hardfall leaves a piece: on or below where it was, inside the play
      area, with a collision one cell further down. */
  function Dropped(g: Grid, p: Piece): (q: Piece)
    requires IsGrid(g) && Inside(p)
    ensures Inside(q) && q.kind == p.kind && q.x == p.x && q.rotation == p.rotation
    ensures p.y <= q.y && Hits(g, q.(y := q.y + BlockSize))
  {
    var ry := RestY(g, p.kind, p.rotation, p.x, p.y);
    RestYStops(g, p.kind, p.rotation, p.x, p.y);
    var q := p.(y := ry);
    assert Inside(q) && Hits(g, q.(y := ry + BlockSize));
    q
  }

  /** Every row between the start and where hardfall leaves the piece is free. */
  lemma DroppedPassesFree(g: Grid, p: Piece, yy: int)
    requires IsGrid(g) && Inside(p) && p.y < yy <= Dropped(g, p).y && yy % BlockSize == 0
    ensures !Hits(g, p.(y := yy))
  {
    RestYPassesFree(g, p.kind, p.rotation, p.x, p.y, yy);
  }

  /** One gravity step heads for where hardfall leaves the piece: a piece that
      locks is already there, and one that falls has the same destination. */
  lemma FallenTowardsDropped(g: Grid, p: Piece)
    requires IsGrid(g) && Inside(p)
    ensures var (locked, q) := Fallen(g, p);
      (locked ==> Dropped(g, p) == p) && (!locked ==> Dropped(g, q) == Dropped(g, p))
  {
    var (k, r, x, y) := (p.kind, p.rotation, p.x, p.y);
    if !Collides(g, k, r, x, y + BlockSize) {
      assert RestY(g, k, r, x, y) == RestY(g, k, r, x, y + BlockSize);
    }
  }

  /** The board with a piece value written into it. */
  function LockedIn(g: Grid, p: Piece): (h: Grid)
    requires IsGrid(g) && 0 <= p.rotation < 4
    ensures IsGrid(h)
  {
    Locked(g, p.kind, p.rotation, p.x, p.y)
  }

  /** setblocks for a piece value: write its kind into its four board cells.
      The same loop as Tetromino.SetBlocks, for a piece held as a value. */
  method WriteCells(board: array2<int>, p: Piece)
    requires Inside(p) && board.Length0 == Height && board.Length1 == Width
    modifies board
    ensures Cells(board) == LockedIn(old(Cells(board)), p)
  {
    InBoundsCells(p.kind, p.rotation, p.x, p.y);
    ghost var g := Cells(board);
    var i := 0;
    while i < 4
      invariant 0 <= i <= 4
      invariant forall row, col :: 0 <= row < Height && 0 <= col < Width ==>
        board[row, col] == if IsPieceCell(p.kind, p.rotation, p.x, p.y, row, col, i) then p.kind else g[row][col]
    {
      board[CellRow(p.kind, p.rotation, p.y, i), CellCol(p.kind, p.rotation, p.x, i)] := p.kind;
      i := i + 1;
    }
    GridExt(Cells(board), LockedIn(g, p));
  }

  class Tetromino {
    var x: int
    var y: int
    var boxX: int
    var boxY: int
    var boxW: int
    var boxH: int
    var rotation: int
    const sprite: int
    const kind: Kind
    const offsets: array2<int>

    /** The derived fields agree with the shape table: what moveblocks establishes. */
    ghost predicate Valid()
      reads this`rotation, this`boxX, this`boxY, this`boxW, this`boxH, offsets
    {
      offsets.Length0 == 4 && offsets.Length1 == 2 && 0 <= rotation < 4 && sprite == kind &&
      (forall i :: 0 <= i < 4 ==>
        offsets[i, 0] == BlockSize * Shape(kind, rotation)[i].0 &&
        offsets[i, 1] == BlockSize * Shape(kind, rotation)[i].1) &&
      boxX == BlockSize * MinCol(kind, rotation) && boxW == BlockSize * MaxCol(kind, rotation) &&
      boxY == BlockSize * MinRow(kind, rotation) && boxH == BlockSize * MaxRow(kind, rotation)
    }

    /** The piece as a value. */
    ghost function Model(): Piece
      reads this`x, this`y, this`rotation
    {
      Piece(kind, x, y, rotation)
    }

    ghost predicate Placed()
      reads this, offsets
    {
      Valid() && Inside(Model())
    }

    constructor (x0: int, y0: int, k: Kind)
      ensures Valid() && fresh(offsets) && Model() == Piece(k, x0, y0, 0)
    {
      rotation := 0;
      x := x0;
      y := y0;
      kind := k;
      sprite := k;
      offsets := new int[4, 2];
      new;
      MoveBlocks();
    }

    function GetY(): int
      reads this
    {
      y
    }

    function GetType(): Kind {
      kind
    }

    /** moveblocks: recompute the offsets and the bounding box from the table. */
    method MoveBlocks()
      requires offsets.Length0 == 4 && offsets.Length1 == 2 && 0 <= rotation < 4 && sprite == kind
      modifies this`boxX, this`boxY, this`boxW, this`boxH, offsets
      ensures Valid()
    {
      var cells := Shape(kind, rotation);
      var left, top, right, bottom, l, t, r, b := ScaleCells(offsets, cells);
      boxX, boxY, boxW, boxH := left, top, right, bottom;
      ExtremesAt(kind, rotation, l, r, t, b);
    }

    /** checkcollision against the board. */
    method CheckCollision(board: array2<int>) returns (c: bool)
      requires Valid() && Aligned(x, y) && board.Length0 == Height && board.Length1 == Width
      ensures c == Collides(Cells(board), kind, rotation, x, y)
    {
      BoxIsExtents(kind, rotation);
      if x + boxW >= FieldWidth || y + boxH >= FieldHeight || x + boxX < 0 || y + boxY < 0 {
        return true;
      }
      InBoundsCells(kind, rotation, x, y);
      var i := 0;
      while i < 4
        invariant 0 <= i <= 4
        invariant forall j :: 0 <= j < i ==>
          board[CellRow(kind, rotation, y, j), CellCol(kind, rotation, x, j)] == Empty
      {
        var ix := x / BlockSize + offsets[i, 0] / BlockSize;
        var iy := y / BlockSize + offsets[i, 1] / BlockSize;
        assert ix == CellCol(kind, rotation, x, i) && iy == CellRow(kind, rotation, y, i);
        if board[iy, ix] != Empty {
          return true;
        }
        i := i + 1;
      }
      return false;
    }

    /** setblocks: write the piece's sprite into its four board cells. */
    method SetBlocks(board: array2<int>)
      requires Placed() && board.Length0 == Height && board.Length1 == Width
      modifies board
      ensures Cells(board) == LockedIn(old(Cells(board)), Model())
    {
      InBoundsCells(kind, rotation, x, y);
      ghost var g := Cells(board);
      var i := 0;
      while i < 4
        invariant 0 <= i <= 4
        invariant forall row, col :: 0 <= row < Height && 0 <= col < Width ==>
          board[row, col] == if IsPieceCell(kind, rotation, x, y, row, col, i) then sprite else g[row][col]
      {
        var ix := x / BlockSize + offsets[i, 0] / BlockSize;
        var iy := y / BlockSize + offsets[i, 1] / BlockSize;
        assert ix == CellCol(kind, rotation, x, i) && iy == CellRow(kind, rotation, y, i);
        board[iy, ix] := sprite;
        i := i + 1;
      }
      GridExt(Cells(board), LockedIn(g, Model()));
    }

    /** fall: one cell down, or, if that collides, back up and lock into the board. */
    method Fall(board: array2<int>) returns (locked: bool)
      requires Placed() && board.Length0 == Height && board.Length1 == Width
      modifies this, offsets, board
      ensures Placed() && (locked, Model()) == Fallen(old(Cells(board)), old(Model()))
      ensures Cells(board) == if locked then LockedIn(old(Cells(board)), Model()) else old(Cells(board))
    {
      ghost var p, g := Model(), Cells(board);
      y := y + BlockSize;
      assert Model() == p.(y := p.y + BlockSize);
      MoveBlocks();
      locked := CheckCollision(board);
      assert locked == Hits(g, p.(y := p.y + BlockSize));
      if locked {
        y := y - BlockSize;
        assert Model() == p;
        MoveBlocks();
        SetBlocks(board);
      }
    }

    /** hardfall: fall until the piece locks. */
    method HardFall(board: array2<int>)
      requires Placed() && board.Length0 == Height && board.Length1 == Width
      modifies this, offsets, board
      ensures Placed() && Model() == Dropped(old(Cells(board)), old(Model()))
      ensures Cells(board) == LockedIn(old(Cells(board)), Model())
    {
      assert board != offsets;
      ghost var g := Cells(board);
      ghost var target := Dropped(g, Model());
      var locked := false;
      while !locked
        invariant Placed()
        invariant !locked ==> Cells(board) == g && Dropped(g, Model()) == target
        invariant locked ==> Model() == target && Cells(board) == LockedIn(g, Model())
        decreases FieldHeight - y + (if locked then 0 else BlockSize)
      {
        ghost var before := Model();
        locked := Fall(board);
        FallenTowardsDropped(g, before);
        ExtentsInBox(kind, rotation);
      }
    }

    /** move: one cell sideways (left when `left`), undone on collision. */
    method Move(board: array2<int>, left: bool)
      requires Valid() && Aligned(x, y) && board.Length0 == Height && board.Length1 == Width
      modifies this, offsets
      ensures Valid() && Model() == Moved(Cells(board), old(Model()), left)
    {
      ghost var p, g := Model(), Cells(board);
      var oldx := x;
      x := x + BlockSize - 2 * BlockSize * (if left then 1 else 0);
      assert Model() == p.(x := p.x + Shift(left));
      MoveBlocks();
      var c := CheckCollision(board);
      assert c == Hits(g, p.(x := p.x + Shift(left)));
      if c {
        MoveBlocks();
        x := oldx;
        assert Model() == p;
      }
    }

    /** rotate: one rotation step (left when `left`), undone on collision. */
    method Rotate(board: array2<int>, left: bool)
      requires Valid() && Aligned(x, y) && board.Length0 == Height && board.Length1 == Width
      modifies this, offsets
      ensures Valid() && Model() == Rotated(Cells(board), old(Model()), left)
    {
      ghost var p, g := Model(), Cells(board);
      var diff := if left then -1 else 1;
      var oldrot := rotation;
      rotation := rotation + diff;
      if rotation < 0 {
        rotation := rotation + 4;
      } else if rotation > 3 {
        rotation := rotation - 4;
      }
      assert Model() == p.(rotation := Turned(p.rotation, left));
      MoveBlocks();
      var c := CheckCollision(board);
      assert c == Hits(g, p.(rotation := Turned(p.rotation, left)));
      if c {
        rotation := oldrot;
        MoveBlocks();
        assert Model() == p;
      }
    }

    method SetX(nx: int)
      modifies this`x
      ensures x == nx
    {
      x := nx;
    }

    method SetY(ny: int)
      modifies this`y
      ensures y == ny
    {
      y := ny;
    }

    /** setrotation: change the rotation and recompute the offsets. */
    method SetRotation(r: int)
      requires Valid() && 0 <= r < 4
      modifies this`rotation, this`boxX, this`boxY, this`boxW, this`boxH, offsets
      ensures Valid() && rotation == r
    {
      rotation := r;
      MoveBlocks();
    }
  }
}
