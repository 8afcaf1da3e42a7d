/**
 * The shape table of the seven tetrominoes: for each piece kind and each of
 * its four rotation states, the (column, row) offsets, in grid units, of the
 * four cells the piece occupies inside its 4x4 box.
 */
module Shapes {

  /** Piece kinds, numbered as the game numbers them: I = 0, J, L, O, S, T, Z = 6.
      The number doubles as the sprite index written into the board. */
  type Kind = k: int | 0 <= k < 7

  const I: Kind := 0
  const J: Kind := 1
  const L: Kind := 2
  const O: Kind := 3
  const S: Kind := 4
  const T: Kind := 5
  const Z: Kind := 6

  /** Side of one grid cell in pixels. */
  const BlockSize: int := 16

  type Cell = (int, int)

  /** The four rotation states of kind k, each a list of four (column, row) offsets. */
  function Rotations(k: Kind): (rots: seq<seq<Cell>>)
    ensures |rots| == 4
    ensures forall r :: 0 <= r < 4 ==> |rots[r]| == 4
    ensures forall r, i :: 0 <= r < 4 && 0 <= i < 4 ==> 0 <= rots[r][i].0 <= 3 && 0 <= rots[r][i].1 <= 3
  {
    if k == I then
      [[(0, 1), (1, 1), (2, 1), (3, 1)],
       [(2, 0), (2, 1), (2, 2), (2, 3)],
       [(0, 2), (1, 2), (2, 2), (3, 2)],
       [(1, 0), (1, 1), (1, 2), (1, 3)]]
    else if k == J then
      [[(0, 0), (0, 1), (1, 1), (2, 1)],
       [(1, 0), (2, 0), (1, 1), (1, 2)],
       [(0, 1), (1, 1), (2, 1), (2, 2)],
       [(1, 0), (1, 1), (1, 2), (0, 2)]]
    else if k == L then
      [[(2, 0), (2, 1), (1, 1), (0, 1)],
       [(1, 0), (1, 1), (1, 2), (2, 2)],
       [(0, 1), (1, 1), (2, 1), (0, 2)],
       [(0, 0), (1, 0), (1, 1), (1, 2)]]
    else if k == O then
      [[(0, 0), (1, 0), (0, 1), (1, 1)],
       [(0, 0), (1, 0), (0, 1), (1, 1)],
       [(0, 0), (1, 0), (0, 1), (1, 1)],
       [(0, 0), (1, 0), (0, 1), (1, 1)]]
    else if k == S then
      [[(1, 0), (2, 0), (0, 1), (1, 1)],
       [(1, 0), (1, 1), (2, 1), (2, 2)],
       [(1, 1), (2, 1), (0, 2), (1, 2)],
       [(0, 0), (0, 1), (1, 1), (1, 2)]]
    else if k == T then
      [[(1, 0), (0, 1), (1, 1), (2, 1)],
       [(1, 0), (1, 1), (2, 1), (1, 2)],
       [(0, 1), (1, 1), (2, 1), (1, 2)],
       [(1, 0), (0, 1), (1, 1), (1, 2)]]
    else
      [[(0, 0), (1, 0), (1, 1), (2, 1)],
       [(2, 0), (1, 1), (2, 1), (1, 2)],
       [(0, 1), (1, 1), (1, 2), (2, 2)],
       [(1, 0), (0, 1), (1, 1), (0, 2)]]
  }

  /** Looks entry (k, r) up by walking the kinds from n upwards. The walk is
      recursive only so that the verifier does not unfold the literal table
      wherever a shape is used; ShapeIsTable gives the plain index
      Rotations(k)[r] where a proof needs it. */
  function Lookup(k: Kind, r: int, n: Kind): (cells: seq<Cell>)
    requires 0 <= r < 4 && n <= k
    ensures |cells| == 4
    ensures forall i :: 0 <= i < 4 ==> 0 <= cells[i].0 <= 3 && 0 <= cells[i].1 <= 3
    decreases k - n
  {
    if n == k then Rotations(n)[r] else Lookup(k, r, n + 1)
  }

  /** block_lookup[k][r]: the four cells of kind k in rotation r, each inside the 4x4 box. */
  function Shape(k: Kind, r: int): (cells: seq<Cell>)
    requires 0 <= r < 4
    ensures |cells| == 4
    ensures forall i :: 0 <= i < 4 ==> 0 <= cells[i].0 <= 3 && 0 <= cells[i].1 <= 3
  {
    Lookup(k, r, 0)
  }

  lemma {:induction false} LookupIsTable(k: Kind, r: int, n: Kind)
    requires 0 <= r < 4 && n <= k
    ensures Lookup(k, r, n) == Rotations(k)[r]
    decreases k - n
  {
    if n < k {
      LookupIsTable(k, r, n + 1);
    }
  }

  /** The lookup returns the table entry. */
  lemma ShapeIsTable(k: Kind, r: int)
    requires 0 <= r < 4
    ensures Shape(k, r) == Rotations(k)[r]
  {
    LookupIsTable(k, r, 0);
  }

  /** The four cells of an entry are pairwise different. */
  predicate Distinct4(c: seq<Cell>) requires |c| == 4 {
    c[0] != c[1] && c[0] != c[2] && c[0] != c[3] && c[1] != c[2] && c[1] != c[3] && c[2] != c[3]
  }

  /** Every table entry names four different cells. */
  lemma ShapeCellsDistinct(k: Kind, r: int)
    requires 0 <= r < 4
    ensures Distinct4(Shape(k, r))
  {
    ShapeIsTable(k, r);
    TableDistinct(k, r);
  }

  /** The same, on the literal table, one rotation state at a time. */
  lemma TableDistinct(k: Kind, r: int)
    requires 0 <= r < 4
    ensures Distinct4(Rotations(k)[r])
  {
    var rots := Rotations(k);
    if r == 0 {
      assert Distinct4(rots[0]);
    } else if r == 1 {
      assert Distinct4(rots[1]);
    } else if r == 2 {
      assert Distinct4(rots[2]);
    } else {
      assert Distinct4(rots[3]);
    }
  }

  /** The O piece looks the same in every rotation state. */
  lemma ORotationInvariant(r: int)
    requires 0 <= r < 4
    ensures Shape(O, r) == Shape(O, 0)
  {
    ShapeIsTable(O, r);
    ShapeIsTable(O, 0);
  }

  function Min(a: int, b: int): int { if a < b then a else b }
  function Max(a: int, b: int): int { if a < b then b else a }

  /** Smallest and largest of the four offsets of an entry. */
  function Min4(s: seq<int>): int requires |s| == 4 { Min(Min(s[0], s[1]), Min(s[2], s[3])) }
  function Max4(s: seq<int>): int requires |s| == 4 { Max(Max(s[0], s[1]), Max(s[2], s[3])) }

  /** The column and the row offsets of four cells, in order. */
  function Col4(c: seq<Cell>): seq<int> requires |c| == 4 { [c[0].0, c[1].0, c[2].0, c[3].0] }
  function Row4(c: seq<Cell>): seq<int> requires |c| == 4 { [c[0].1, c[1].1, c[2].1, c[3].1] }

  /** The column offsets of the four cells of an entry, in table order. */
  function Columns(k: Kind, r: int): (cs: seq<int>)
    requires 0 <= r < 4
    ensures |cs| == 4
    ensures forall i :: 0 <= i < 4 ==> cs[i] == Shape(k, r)[i].0
  {
    Col4(Shape(k, r))
  }

  /** The row offsets of the four cells of an entry, in table order. */
  function RowOffsets(k: Kind, r: int): (rs: seq<int>)
    requires 0 <= r < 4
    ensures |rs| == 4
    ensures forall i :: 0 <= i < 4 ==> rs[i] == Shape(k, r)[i].1
  {
    Row4(Shape(k, r))
  }

  function MinCol(k: Kind, r: int): int requires 0 <= r < 4 { Min4(Columns(k, r)) }
  function MaxCol(k: Kind, r: int): int requires 0 <= r < 4 { Max4(Columns(k, r)) }
  function MinRow(k: Kind, r: int): int requires 0 <= r < 4 { Min4(RowOffsets(k, r)) }
  function MaxRow(k: Kind, r: int): int requires 0 <= r < 4 { Max4(RowOffsets(k, r)) }

  /** The extreme offsets bound every cell of the entry and are reached by one of them. */
  lemma ExtentsTight(k: Kind, r: int)
    requires 0 <= r < 4
    ensures forall i :: 0 <= i < 4 ==>
      MinCol(k, r) <= Shape(k, r)[i].0 <= MaxCol(k, r) && MinRow(k, r) <= Shape(k, r)[i].1 <= MaxRow(k, r)
    ensures exists i :: 0 <= i < 4 && Shape(k, r)[i].0 == MinCol(k, r)
    ensures exists i :: 0 <= i < 4 && Shape(k, r)[i].0 == MaxCol(k, r)
    ensures exists i :: 0 <= i < 4 && Shape(k, r)[i].1 == MinRow(k, r)
    ensures exists i :: 0 <= i < 4 && Shape(k, r)[i].1 == MaxRow(k, r)
  {
  }

  /** The extents lie inside the 4x4 box. */
  lemma ExtentsInBox(k: Kind, r: int)
    requires 0 <= r < 4
    ensures 0 <= MinCol(k, r) <= MaxCol(k, r) <= 3 && 0 <= MinRow(k, r) <= MaxRow(k, r) <= 3
  {
  }

  /** The bounding box of each table entry, as (left, right, top, bottom) in
      grid units: I and O have their own, and the five three-wide pieces share
      one per rotation state. */
  function Box(k: Kind, r: int): (int, int, int, int)
    requires 0 <= r < 4
  {
    if k == I then
      if r == 0 then (0, 3, 1, 1) else if r == 1 then (2, 2, 0, 3) else if r == 2 then (0, 3, 2, 2) else (1, 1, 0, 3)
    else if k == O then (0, 1, 0, 1)
    else
      if r == 0 then (0, 2, 0, 1) else if r == 1 then (1, 2, 0, 2) else if r == 2 then (0, 2, 1, 2) else (0, 1, 0, 2)
  }

  /** The box table agrees with the extents of the shape table. */
  lemma BoxIsExtents(k: Kind, r: int)
    requires 0 <= r < 4
    ensures Box(k, r) == (MinCol(k, r), MaxCol(k, r), MinRow(k, r), MaxRow(k, r))
  {
    ShapeIsTable(k, r);
    if r == 0 {
      TableBox0(k);
    } else if r == 1 {
      TableBox1(k);
    } else if r == 2 {
      TableBox2(k);
    } else {
      TableBox3(k);
    }
  }

  /** The box of the literal entry Rotations(k)[r], from its own offsets. */
  predicate TableBox(k: Kind, r: int)
    requires 0 <= r < 4
  {
    var c := Rotations(k)[r];
    Box(k, r) == (Min4(Col4(c)), Max4(Col4(c)), Min4(Row4(c)), Max4(Row4(c)))
  }

  /** The box table checked against the literal table, one rotation state at a time. */
  lemma TableBox0(k: Kind) ensures TableBox(k, 0) { }
  lemma TableBox1(k: Kind) ensures TableBox(k, 1) { }
  lemma TableBox2(k: Kind) ensures TableBox(k, 2) { }
  lemma TableBox3(k: Kind) ensures TableBox(k, 3) { }
}
