/**
 * The game controller: the MENU / PLAY / PAUSE / DEAD / HELP state machine,
 * per-tick input handling (rotation, hold, hard drop, auto-repeat of the
 * directional buttons), the gravity step with locking, line clearing,
 * scoring and game over, and the promotion of the next piece.
 */
module Game {
  import opened Shapes
  import opened Randomizer
  import opened Board
  import opened Pieces

  /** A slot that may be empty: the controller's piece and bag pointers, which are null until a game starts. */
  datatype Option<T> = None | Some(value: T)

  datatype Mode = Play | Pause | Dead | Menu | Help

  datatype Button = Select | Start | Airboy | Up | Down | Left | Right | A | B | X | Y

  /** One tick of input: the buttons held now, and those pressed since the previous tick. */
  datatype Input = Input(pressed: set<Button>, justPressed: set<Button>)

  /** The random words consumed by one tick, one per place that may draw a piece. */
  datatype Randoms = Randoms(first: nat, second: nat, hold: nat, drop: nat, fall: nat)

  predicate InRange(rs: Randoms) {
    rs.first < RandomRange && rs.second < RandomRange && rs.hold < RandomRange &&
    rs.drop < RandomRange && rs.fall < RandomRange
  }

  /** The three fall intervals, in frames. */
  const Easy: int := 100
  const Medium: int := 80
  const Hard: int := 50

  /** The frame counter wraps here. */
  const FrameWrap: int := 360000

  predicate IsDifficulty(d: int) {
    d == Easy || d == Medium || d == Hard
  }

  /** changedifficulty: up goes EASY -> HARD -> MEDIUM -> EASY, down the other way;
      any other value stays as it is. */
  function Cycled(d: int, up: bool): (e: int)
    ensures IsDifficulty(e) == IsDifficulty(d)
    ensures !IsDifficulty(d) ==> e == d
  {
    if up then
      if d == Easy then Hard else if d == Medium then Easy else if d == Hard then Medium else d
    else
      if d == Easy then Medium else if d == Medium then Hard else if d == Hard then Easy else d
  }

  /** Up and down undo each other. */
  lemma CycledInverse(d: int)
    ensures Cycled(Cycled(d, true), false) == d && Cycled(Cycled(d, false), true) == d
  {
  }

  /** Three steps the same way come back; one step always changes a difficulty and
      keeps it a difficulty. */
  lemma CycledPeriod(d: int, up: bool)
    requires IsDifficulty(d)
    ensures Cycled(Cycled(Cycled(d, up), up), up) == d
    ensures IsDifficulty(Cycled(d, up)) && Cycled(d, up) != d
    ensures Cycled(Cycled(d, up), up) != d
  {
  }

  /** The difficulty after the MENU branch of handleinput with no SELECT or
      AIRBOY press: START, DOWN and LEFT step down, UP and RIGHT step up, in that order. */
  function MenuDifficulty(d: int, jp: set<Button>): (e: int)
    ensures IsDifficulty(d) ==> IsDifficulty(e)
  {
    var d1 := if Start in jp then Cycled(d, false) else d;
    var d2 := if Down in jp then Cycled(d1, false) else d1;
    var d3 := if Up in jp then Cycled(d2, true) else d2;
    var d4 := if Left in jp then Cycled(d3, false) else d3;
    if Right in jp then Cycled(d4, true) else d4
  }

  /** A press of DOWN together with UP, or of LEFT together with RIGHT, cancels out. */
  lemma MenuOppositesCancel(d: int)
    ensures MenuDifficulty(d, {Down, Up}) == d && MenuDifficulty(d, {Left, Right}) == d
    ensures MenuDifficulty(d, {Start, Right}) == d
  {
    CycledInverse(d);
  }

  /** Spawn column of a piece, in pixels: one cell further right for the O piece. */
  function SpawnX(k: Kind): (x: int)
    ensures Aligned(x, 0) && 0 <= x < FieldWidth
  {
    (if k == O then 4 else 3) * BlockSize
  }

  /** A piece in rotation 0 at its spawn position is on the grid and inside the play area. */
  lemma SpawnInside(k: Kind)
    ensures Inside(Piece(k, SpawnX(k), 0, 0))
  {
    ShapeIsTable(k, 0);
  }

  /** setx / sety to the spawn position, as a piece is promoted to current. */
  function Spawned(p: Piece): (q: Piece)
    ensures q.kind == p.kind && q.rotation == p.rotation
    ensures p.rotation == 0 ==> Inside(q)
  {
    SpawnInside(p.kind);
    p.(x := SpawnX(p.kind), y := 0)
  }

  /** A new piece of kind k as the next-piece display creates it: (210, 25), rotation 0. */
  function Preview(k: Kind): Piece {
    Piece(k, PreviewX, NextY, 0)
  }

  /** A piece moved to the hold display: (210, 105), rotation 0. */
  function Held(p: Piece): Piece {
    p.(x := PreviewX, y := HoldY, rotation := 0)
  }

  /** The state of one auto-repeat timer. */
  datatype Repeat = Repeat(timeout: int, counter: int)

  /** One tick of an auto-repeat block of handleinput: while the button is held,
      the action fires when the counter is 0 (never fired yet) or the timeout has
      run out, and then the counter and the timeout become `first` the very first
      time and `again` afterwards; otherwise the timeout counts down. Releasing the
      button clears the timeout but keeps the counter. */
  function RepeatStep(held: bool, s: Repeat, first: int, again: int): (r: (bool, Repeat))
    ensures r.0 ==> held && r.1.timeout == r.1.counter && (r.1.counter == first || r.1.counter == again)
    ensures !held ==> !r.0 && r.1 == Repeat(0, s.counter)
  {
    if held then
      if s.counter == 0 || s.timeout == 0 then
        var c := if s.counter == 0 then first else again;
        (true, Repeat(c, c))
      else
        (false, Repeat(s.timeout - 1, s.counter))
    else
      (false, Repeat(0, s.counter))
  }

  /** The timer over several ticks: which ticks fire, and the final state. */
  function RepeatRun(helds: seq<bool>, s: Repeat, first: int, again: int): (r: (seq<bool>, Repeat))
    ensures |r.0| == |helds|
    decreases |helds|
  {
    if |helds| == 0 then ([], s)
    else
      var (f, s1) := RepeatStep(helds[0], s, first, again);
      var (fs, s2) := RepeatRun(helds[1..], s1, first, again);
      ([f] + fs, s2)
  }

  /** The counter is never reset: once it has left 0 it is `again` or its old value
      for ever. Not even newgame clears it, so the long first delay is waited only
      once after power-on. */
  lemma {:induction false} CounterNeverResets(helds: seq<bool>, s: Repeat, first: int, again: int)
    requires s.counter != 0 && again != 0
    ensures var c := RepeatRun(helds, s, first, again).1.counter; c == s.counter || c == again
    decreases |helds|
  {
    if |helds| > 0 {
      var s1 := RepeatStep(helds[0], s, first, again).1;
      CounterNeverResets(helds[1..], s1, first, again);
    }
  }

  /** After the button is released, the next press fires at once. */
  lemma PressAfterReleaseFires(s: Repeat, first: int, again: int)
    ensures RepeatStep(true, RepeatStep(false, s, first, again).1, first, again).0
  {
  }

  /** Held without a break, a timer with a live counter stays quiet for `timeout` ticks. */
  lemma {:induction false} HeldQuiet(n: nat, s: Repeat, first: int, again: int)
    requires s.counter != 0 && n <= s.timeout
    ensures RepeatRun(seq(n, _ => true), s, first, again) == (seq(n, _ => false), Repeat(s.timeout - n, s.counter))
    decreases n
  {
    if n == 0 {
      assert seq(0, _ => true) == [] && seq(0, _ => false) == [];
    } else {
      assert seq(n, _ => true)[1..] == seq(n - 1, _ => true);
      HeldQuiet(n - 1, Repeat(s.timeout - 1, s.counter), first, again);
      assert seq(n, _ => false) == [false] + seq(n - 1, _ => false);
    }
  }

  /** ... and fires on the tick after that: so a held button repeats every
      `again` + 1 ticks once it has fired. */
  lemma HeldFires(s: Repeat, first: int, again: int)
    requires s.counter != 0 && 0 <= s.timeout
    ensures RepeatRun(seq(s.timeout + 1, _ => true), s, first, again) ==
      (seq(s.timeout, _ => false) + [true], Repeat(again, again))
  {
    HeldQuiet(s.timeout, s, first, again);
    RepeatRunSplit(seq(s.timeout, _ => true), s, first, again);
    assert seq(s.timeout + 1, _ => true) == seq(s.timeout, _ => true) + [true];
  }

  /** Running one more held tick after a run appends that tick's outcome. */
  lemma {:induction false} RepeatRunSplit(helds: seq<bool>, s: Repeat, first: int, again: int)
    ensures var (fs, s1) := RepeatRun(helds, s, first, again);
      var (f, s2) := RepeatStep(true, s1, first, again);
      RepeatRun(helds + [true], s, first, again) == (fs + [f], s2)
    decreases |helds|
  {
    if |helds| > 0 {
      assert (helds + [true])[0] == helds[0] && (helds + [true])[1..] == helds[1..] + [true];
      var (f0, s1) := RepeatStep(helds[0], s, first, again);
      RepeatRunSplit(helds[1..], s1, first, again);
      var (fs, t) := RepeatRun(helds[1..], s1, first, again);
      var f := RepeatStep(true, t, first, again).0;
      assert [f0] + (fs + [f]) == ([f0] + fs) + [f];
      assert RepeatRun(helds, s, first, again) == ([f0] + fs, t);
      assert RepeatRun(helds + [true], s, first, again) == ([f0] + (fs + [f]), RepeatStep(true, t, first, again).1);
    } else {
      assert helds + [true] == [true] && [true][1..] == [];
      var (f, s2) := RepeatStep(true, s, first, again);
      assert RepeatRun([], s2, first, again) == ([], s2);
      assert [f] + [] == [f] && [] + [f] == [f];
      assert RepeatRun([true], s, first, again) == ([f], s2);
    }
  }

  /** The three auto-repeat timers of handleinput and the fall speed-up they drive. */
  datatype Timers = Timers(left: Repeat, right: Repeat, down: Repeat, speedup: int)

  /** One tick of the three auto-repeat blocks of the PLAY branch: DPAD_RIGHT
      drives the `left` timer and DPAD_LEFT the `right` one (20 frames, then 10);
      DOWN drives the `down` timer (10, then 2), which sets the speed-up to 10
      when it fires and back to 1 when DOWN is released. */
  function TimersStep(t: Timers, pressed: set<Button>): (u: Timers)
    ensures u.speedup == 1 || u.speedup == 10 || u.speedup == t.speedup
    ensures Down !in pressed ==> u.speedup == 1
  {
    var (_, l) := RepeatStep(Right in pressed, t.left, 20, 10);
    var (_, r) := RepeatStep(Left in pressed, t.right, 20, 10);
    var (fire, d) := RepeatStep(Down in pressed, t.down, 10, 2);
    Timers(l, r, d, if Down !in pressed then 1 else if fire then 10 else t.speedup)
  }

  /** A and B of the PLAY branch on a piece value: A rotates right, then B
      rotates left, each undone on collision. */
  function Spun(g: Grid, c: Piece, jp: set<Button>): (q: Piece)
    requires IsGrid(g) && 0 <= c.rotation < 4 && Aligned(c.x, c.y)
    ensures q.kind == c.kind && q.x == c.x && q.y == c.y && 0 <= q.rotation < 4
    ensures Inside(c) ==> Inside(q)
    ensures !Hits(g, c) ==> !Hits(g, q)
    ensures A !in jp && B !in jp ==> q == c
  {
    var c1 := if A in jp then Rotated(g, c, false) else c;
    if B in jp then Rotated(g, c1, true) else c1
  }

  /** The two side-move blocks on a piece value: when the DPAD_RIGHT timer
      fires the piece moves left, then when the DPAD_LEFT timer fires it moves
      right, each undone on collision. */
  function Slid(g: Grid, c: Piece, t: Timers, pressed: set<Button>): (q: Piece)
    requires IsGrid(g) && 0 <= c.rotation < 4 && Aligned(c.x, c.y)
    ensures q.kind == c.kind && q.y == c.y && q.rotation == c.rotation && Aligned(q.x, q.y)
    ensures Inside(c) ==> Inside(q)
    ensures !Hits(g, c) ==> !Hits(g, q)
    ensures Left !in pressed && Right !in pressed ==> q == c
  {
    var c1 := if RepeatStep(Right in pressed, t.left, 20, 10).0 then Moved(g, c, true) else c;
    if RepeatStep(Left in pressed, t.right, 20, 10).0 then Moved(g, c1, false) else c1
  }

  /** Everything of the controller but its mode, as one value. */
  datatype Snapshot = Snapshot(cells: Grid, current: Option<Piece>, next: Option<Piece>, hold: Option<Piece>,
                               bag: Option<BagState>, usedHold: bool, score: int, frame: int, clock: Timers,
                               difficulty: int)

  /** Spawned pieces fall freely on an empty board: a new game cannot end on its first gravity step. */
  lemma SpawnFallsFree(k: Kind)
    ensures !Hits(EmptyGrid(), Piece(k, SpawnX(k), BlockSize, 0))
  {
    BoxIsExtents(k, 0);
  }

  /** The modes in which a game is under way and the pieces are live. */
  predicate Playing(m: Mode) {
    m == Play || m == Pause
  }

  /** The settings stay within their ranges. */
  predicate SettingsValid(difficulty: int, speedup: int, frame: int) {
    IsDifficulty(difficulty) && (speedup == 1 || speedup == 10) && 0 <= frame < FrameWrap
  }

  /** A consistent bag; the next and held pieces in rotation 0; while a game is
      under way a current piece inside the play area, a next piece and a bag;
      otherwise empty next and hold slots and a clear hold flag. */
  ghost predicate SlotsValid(state: Mode, current: Option<Piece>, next: Option<Piece>, hold: Option<Piece>,
                             bag: Option<BagState>, usedHold: bool)
  {
    (bag.Some? ==> ValidState(bag.value)) &&
    (next.Some? ==> next.value.rotation == 0) &&
    (hold.Some? ==> hold.value.rotation == 0) &&
    (Playing(state) ==> current.Some? && Inside(current.value) && next.Some? && bag.Some?) &&
    (!Playing(state) ==> next.None? && hold.None? && !usedHold)
  }

  class Mijakspad {
    const board: array2<int>
    var current: Option<Piece>
    var next: Option<Piece>
    var hold: Option<Piece>
    var bag: Option<BagState>
    var usedHold: bool
    var score: int
    var frame: int
    var leftTimeout: int
    var leftCounter: int
    var rightTimeout: int
    var rightCounter: int
    var downTimeout: int
    var downCounter: int
    var speedup: int
    var state: Mode
    var difficulty: int

    /** The board is 15 x 10 and holds only empty cells and kinds. */
    ghost predicate BoardValid()
      reads board
    {
      board.Length0 == Height && board.Length1 == Width && WellFormed(Cells(board))
    }

    /** The controller invariant. */
    ghost predicate Valid()
      reads this, board
    {
      BoardValid() && SettingsValid(difficulty, speedup, frame) && SlotsValid(state, current, next, hold, bag, usedHold)
    }

    /** The controller as constructed: MENU, EASY, no pieces, and a zeroed board
        (the board is a static array, so it is zero until setup runs). */
    constructor ()
      ensures Valid()
      ensures state == Menu && difficulty == Easy && speedup == 1 && score == 0 && frame == 0
      ensures current == None && next == None && hold == None && bag == None && !usedHold
      ensures Cells(board) == seq(Height, _ => seq(Width, _ => 0))
      ensures Clock() == Timers(Repeat(0, 0), Repeat(0, 0), Repeat(0, 0), 1)
    {
      board := new int[Height, Width]((_, _) => 0);
      current, next, hold, bag := None, None, None, None;
      usedHold := false;
      score, frame := 0, 0;
      leftTimeout, leftCounter, rightTimeout, rightCounter, downTimeout, downCounter := 0, 0, 0, 0, 0, 0;
      speedup := 1;
      state := Menu;
      difficulty := Easy;
      new;
      GridExt(Cells(board), seq(Height, _ => seq(Width, _ => 0)));
    }

    /** setup: empty the board. */
    method Setup()
      requires Valid()
      modifies board
      ensures Valid() && Cells(board) == EmptyGrid()
    {
      ClearGrid(board);
    }

    /** changedifficulty. */
    method ChangeDifficulty(up: bool)
      requires Valid()
      modifies this`difficulty
      ensures Valid() && difficulty == Cycled(old(difficulty), up)
    {
      CycledPeriod(difficulty, up);
      if up {
        if difficulty == Easy {
          difficulty := Hard;
        } else if difficulty == Medium {
          difficulty := Easy;
        } else if difficulty == Hard {
          difficulty := Medium;
        }
      } else {
        if difficulty == Easy {
          difficulty := Medium;
        } else if difficulty == Medium {
          difficulty := Hard;
        } else if difficulty == Hard {
          difficulty := Easy;
        }
      }
    }

    /** checklines: scan rows 1..14 top to bottom, remove each full row, then score. */
    method CheckLines()
      requires BoardValid()
      modifies board, this`score
      ensures BoardValid()
      ensures Cells(board) == ClearLines(old(Cells(board)))
      ensures score == old(score) + LineScore(FullCount(old(Cells(board))[1..]))
    {
      var numLines := RemoveFullRows(board);
      score := score + LineScore(numLines);
      ClearLinesWellFormed(old(Cells(board)));
    }

    /** newgame: PLAY, an empty board, a new bag, and the first two pieces drawn
        from it. The score, the hold slot and the hold flag are left as they are. */
    method NewGame(first: nat, second: nat)
      requires Valid() && state == Menu && first < RandomRange && second < RandomRange
      modifies this`state, this`bag, this`current, this`next, board
      ensures Valid() && state == Play && Cells(board) == EmptyGrid()
      ensures score == old(score) && hold == old(hold) && usedHold == old(usedHold)
      ensures var (s, p, q) := Opening(first, second);
        bag == Some(s) && current == Some(Piece(p, SpawnX(p), 0, 0)) && next == Some(Preview(q))
    {
      state := Play;
      ClearGrid(board);
      FreshValid();
      DrawTakesUnused(Fresh(), first);
      var (s1, c) := Draw(Fresh(), first);
      current := Some(Piece(c, SpawnX(c), 0, 0));
      DrawTakesUnused(s1, second);
      var (s2, n) := Draw(s1, second);
      next := Some(Preview(n));
      bag := Some(s2);
      SpawnInside(c);
    }

    /** The controller without its mode. */
    ghost function Others(): Snapshot
      reads this, board
      requires board.Length0 == Height && board.Length1 == Width
    {
      Snapshot(Cells(board), current, next, hold, bag, usedHold, score, frame, Clock(), difficulty)
    }

    /** The auto-repeat timers and the speed-up as a value. */
    function Clock(): Timers
      reads this`leftTimeout, this`leftCounter, this`rightTimeout, this`rightCounter
      reads this`downTimeout, this`downCounter, this`speedup
    {
      Timers(Repeat(leftTimeout, leftCounter), Repeat(rightTimeout, rightCounter), Repeat(downTimeout, downCounter), speedup)
    }

    /** Whether gravity acts on this frame: every difficulty / speedup frames. */
    function Due(): bool
      reads this
      requires SettingsValid(difficulty, speedup, frame)
    {
      frame % (difficulty / speedup) == 0
    }

    /** The current piece cannot fall a row: the next gravity step locks it. */
    ghost predicate Lands()
      reads this, board
      requires Valid() && state == Play
    {
      Hits(Cells(board), current.value.(y := current.value.y + BlockSize))
    }

    /** The common tail of a lock, in update and on X: checklines, then the next
        piece becomes current at its spawn position, a new next piece is drawn
        from the bag, and the hold is allowed again. */
    method Settle(random: nat)
      requires Valid() && state == Play && random < RandomRange
      modifies this`current, this`next, this`bag, this`usedHold, this`score, board
      ensures Valid() && score >= old(score)
      ensures Cells(board) == ClearLines(old(Cells(board)))
      ensures score == old(score) + LineScore(FullCount(old(Cells(board))[1..]))
      ensures var (s, k) := Draw(old(bag.value), random);
        current == Some(Spawned(old(next.value))) && next == Some(Preview(k)) && bag == Some(s) && !usedHold
    {
      CheckLines();
      DrawTakesUnused(bag.value, random);
      var (s, k) := Draw(bag.value, random);
      current, next, bag, usedHold := Some(Spawned(next.value)), Some(Preview(k)), Some(s), false;
    }

    /** Locking the current piece in update: it is written into the board and
        settled, and a lock in the top row ends the game, emptying the next and
        hold slots. */
    method Lock(random: nat)
      requires Valid() && state == Play && random < RandomRange
      modifies this`current, this`next, this`hold, this`bag, this`usedHold, this`state, this`score, board
      ensures Valid() && score >= old(score)
      ensures var g := LockedIn(old(Cells(board)), old(current.value));
        Cells(board) == ClearLines(g) && score == old(score) + LineScore(FullCount(g[1..]))
      ensures var (s, k) := Draw(old(bag.value), random);
        current == Some(Spawned(old(next.value))) && bag == Some(s) && !usedHold &&
        state == (if old(current.value.y) == 0 then Dead else Play) &&
        (state == Dead ==> next == None && hold == None) &&
        (state == Play ==> next == Some(Preview(k)) && hold == old(hold))
    {
      var p := current.value;
      WriteCells(board, p);
      LockedWellFormed(old(Cells(board)), p.kind, p.rotation, p.x, p.y);
      Settle(random);
      if p.y == 0 {
        state, next, hold := Dead, None, None;
      }
    }

    /** The gravity part of the PLAY branch of update: when the frame is due, the
        current piece falls one row, or, if it cannot, locks. */
    method Gravity(random: nat)
      requires Valid() && state == Play && random < RandomRange
      modifies this`current, this`next, this`hold, this`bag, this`usedHold, this`state, this`score, board
      ensures Valid() && score >= old(score)
      ensures !old(Due()) ==>
        current == old(current) && next == old(next) && hold == old(hold) && bag == old(bag) &&
        usedHold == old(usedHold) && state == Play && score == old(score) && Cells(board) == old(Cells(board))
      ensures old(Due()) && !old(Lands()) ==>
        current == Some(old(current.value).(y := old(current.value.y) + BlockSize)) &&
        next == old(next) && hold == old(hold) && bag == old(bag) &&
        usedHold == old(usedHold) && state == Play && score == old(score) && Cells(board) == old(Cells(board))
      ensures old(Due()) && old(Lands()) ==>
        var g := LockedIn(old(Cells(board)), old(current.value));
        var (s, k) := Draw(old(bag.value), random);
        Cells(board) == ClearLines(g) && score == old(score) + LineScore(FullCount(g[1..])) &&
        current == Some(Spawned(old(next.value))) && bag == Some(s) && !usedHold &&
        state == (if old(current.value.y) == 0 then Dead else Play) &&
        (state == Dead ==> next == None && hold == None) &&
        (state == Play ==> next == Some(Preview(k)) && hold == old(hold))
    {
      if frame % (difficulty / speedup) == 0 {
        var (locked, p) := Fallen(Cells(board), current.value);
        assert locked == Lands();
        if !locked {
          current := Some(p);
        } else {
          Lock(random);
        }
      }
    }

    /** The Y button: once per piece, swap the current piece with the held one (on
        the first hold of a game, with the next piece, drawing a new next). */
    method HoldPiece(random: nat)
      requires Valid() && state == Play && random < RandomRange
      modifies this`current, this`next, this`hold, this`bag, this`usedHold
      ensures Valid()
      ensures old(usedHold) ==>
        current == old(current) && next == old(next) && hold == old(hold) && bag == old(bag) && usedHold
      ensures !old(usedHold) ==>
        usedHold && hold == Some(Held(old(current.value))) &&
        current == Some(Spawned(if old(hold).None? then old(next.value) else old(hold.value)))
      ensures !old(usedHold) && old(hold).Some? ==> next == old(next) && bag == old(bag)
      ensures !old(usedHold) && old(hold).None? ==>
        var (s, k) := Draw(old(bag.value), random);
        bag == Some(s) && next == Some(Preview(k))
    {
      if !usedHold {
        if hold.None? {
          DrawTakesUnused(bag.value, random);
          var (s, k) := Draw(bag.value, random);
          hold, next, bag := next, Some(Preview(k)), Some(s);
        }
        current, hold, usedHold := Some(Spawned(hold.value)), Some(Held(current.value)), true;
      }
    }

    /** The X button: drop the current piece to where it rests, lock it and
        settle. This path never ends the game. */
    method HardDrop(random: nat)
      requires Valid() && state == Play && random < RandomRange
      modifies this`current, this`next, this`bag, this`usedHold, this`score, board
      ensures Valid()
      ensures var g := LockedIn(old(Cells(board)), Dropped(old(Cells(board)), old(current.value)));
        Cells(board) == ClearLines(g) && score == old(score) + LineScore(FullCount(g[1..]))
      ensures var (s, k) := Draw(old(bag.value), random);
        current == Some(Spawned(old(next.value))) && next == Some(Preview(k)) && bag == Some(s) && !usedHold
    {
      var p := Dropped(Cells(board), current.value);
      WriteCells(board, p);
      LockedWellFormed(old(Cells(board)), p.kind, p.rotation, p.x, p.y);
      Settle(random);
    }

    /** The auto-repeat block driven by DPAD_RIGHT: it moves the piece left
        (move(true)), after 20 frames the first time and every 10 after that. */
    method LeftRepeat(held: bool)
      requires Valid() && state == Play
      modifies this`current, this`leftTimeout, this`leftCounter
      ensures Valid()
      ensures var (fire, r) := RepeatStep(held, Repeat(old(leftTimeout), old(leftCounter)), 20, 10);
        Repeat(leftTimeout, leftCounter) == r &&
        current == if fire then Some(Moved(Cells(board), old(current.value), true)) else old(current)
    {
      if held {
        if leftCounter == 0 || leftTimeout == 0 {
          current := Some(Moved(Cells(board), current.value, true));
          leftCounter := if leftCounter == 0 then 20 else 10;
          leftTimeout := leftCounter;
        } else {
          leftTimeout := leftTimeout - 1;
        }
      } else {
        leftTimeout := 0;
      }
    }

    /** The auto-repeat block driven by DPAD_LEFT: it moves the piece right (move(false)). */
    method RightRepeat(held: bool)
      requires Valid() && state == Play
      modifies this`current, this`rightTimeout, this`rightCounter
      ensures Valid()
      ensures var (fire, r) := RepeatStep(held, Repeat(old(rightTimeout), old(rightCounter)), 20, 10);
        Repeat(rightTimeout, rightCounter) == r &&
        current == if fire then Some(Moved(Cells(board), old(current.value), false)) else old(current)
    {
      if held {
        if rightCounter == 0 || rightTimeout == 0 {
          current := Some(Moved(Cells(board), current.value, false));
          rightCounter := if rightCounter == 0 then 20 else 10;
          rightTimeout := rightCounter;
        } else {
          rightTimeout := rightTimeout - 1;
        }
      } else {
        rightTimeout := 0;
      }
    }

    /** The soft-drop block: while DOWN is held the fall speeds up tenfold from
        the first firing on; releasing it restores the normal speed. */
    method DownRepeat(held: bool)
      requires Valid()
      modifies this`downTimeout, this`downCounter, this`speedup
      ensures Valid()
      ensures var (fire, r) := RepeatStep(held, Repeat(old(downTimeout), old(downCounter)), 10, 2);
        Repeat(downTimeout, downCounter) == r &&
        speedup == (if !held then 1 else if fire then 10 else old(speedup))
    {
      if held {
        if downCounter == 0 || downTimeout == 0 {
          speedup := 10;
          downCounter := if downCounter == 0 then 10 else 2;
          downTimeout := downCounter;
        } else {
          downTimeout := downTimeout - 1;
        }
      } else {
        downTimeout := 0;
        speedup := 1;
      }
    }

    /** A and B of the PLAY branch of handleinput: A rotates right, then B
        rotates left. */
    method Turns(jp: set<Button>)
      requires Valid() && state == Play
      modifies this`current
      ensures Valid() && current == Some(Spun(Cells(board), old(current.value), jp))
    {
      var c := current.value;
      if A in jp {
        c := Rotated(Cells(board), c, false);
      }
      if B in jp {
        c := Rotated(Cells(board), c, true);
      }
      current := Some(c);
    }

    /** Y and X of the PLAY branch of handleinput: Y holds, then X hard-drops. */
    method HoldAndDrop(jp: set<Button>, rs: Randoms)
      requires Valid() && state == Play && InRange(rs)
      modifies this`current, this`next, this`hold, this`bag, this`usedHold, this`score, board
      ensures Valid() && state == Play && score >= old(score)
      ensures X !in jp && Y !in jp ==>
        Cells(board) == old(Cells(board)) && score == old(score) && current == old(current) && next == old(next) &&
        hold == old(hold) && bag == old(bag) && usedHold == old(usedHold)
      ensures X in jp ==> !usedHold
    {
      if Y in jp {
        HoldPiece(rs.hold);
      }
      if X in jp {
        HardDrop(rs.drop);
      }
    }

    /** The action buttons of the PLAY branch of handleinput: A rotates right,
        B rotates left, Y holds, X hard-drops, in that order. */
    method Actions(jp: set<Button>, rs: Randoms)
      requires Valid() && state == Play && InRange(rs)
      modifies this`current, this`next, this`hold, this`bag, this`usedHold, this`score, board
      ensures Valid() && score >= old(score)
      ensures X !in jp && Y !in jp ==>
        Cells(board) == old(Cells(board)) && score == old(score) && next == old(next) && hold == old(hold) &&
        bag == old(bag) && usedHold == old(usedHold) && current == Some(Spun(Cells(board), old(current.value), jp))
      ensures X in jp ==> !usedHold
    {
      Turns(jp);
      HoldAndDrop(jp, rs);
    }

    /** The three auto-repeat blocks of the PLAY branch of handleinput. */
    method Repeats(pressed: set<Button>)
      requires Valid() && state == Play
      modifies this`current, this`leftTimeout, this`leftCounter, this`rightTimeout, this`rightCounter
      modifies this`downTimeout, this`downCounter, this`speedup
      ensures Valid() && current == Some(Slid(Cells(board), old(current.value), old(Clock()), pressed))
      ensures Clock() == TimersStep(old(Clock()), pressed)
    {
      LeftRepeat(Right in pressed);
      RightRepeat(Left in pressed);
      DownRepeat(Down in pressed);
    }

    /** The PLAY branch of handleinput without SELECT: the action buttons, then
        the three auto-repeat blocks. */
    method PlayInput(input: Input, rs: Randoms)
      requires Valid() && state == Play && InRange(rs)
      modifies this`current, this`next, this`hold, this`bag, this`usedHold, this`score, board
      modifies this`leftTimeout, this`leftCounter, this`rightTimeout, this`rightCounter
      modifies this`downTimeout, this`downCounter, this`speedup
      ensures Valid() && score >= old(score)
      ensures X !in input.justPressed && Y !in input.justPressed ==>
        Cells(board) == old(Cells(board)) && score == old(score) && next == old(next) && hold == old(hold) &&
        bag == old(bag) && usedHold == old(usedHold) &&
        current == Some(Slid(Cells(board), Spun(Cells(board), old(current.value), input.justPressed), old(Clock()), input.pressed))
      ensures X in input.justPressed ==> !usedHold
      ensures Clock() == TimersStep(old(Clock()), input.pressed)
    {
      Actions(input.justPressed, rs);
      Repeats(input.pressed);
    }

    /** The difficulty buttons of the MENU branch of handleinput. */
    method MenuInput(jp: set<Button>)
      requires Valid()
      modifies this`difficulty
      ensures Valid() && difficulty == MenuDifficulty(old(difficulty), jp)
    {
      if Start in jp {
        ChangeDifficulty(false);
      }
      if Down in jp {
        ChangeDifficulty(false);
      }
      if Up in jp {
        ChangeDifficulty(true);
      }
      if Left in jp {
        ChangeDifficulty(false);
      }
      if Right in jp {
        ChangeDifficulty(true);
      }
    }

    /** The MENU branch of handleinput: SELECT starts a new game, AIRBOY
        opens HELP, and the other buttons change the difficulty. */
    method MenuStep(jp: set<Button>, rs: Randoms)
      requires Valid() && state == Menu && InRange(rs)
      modifies this`state, this`bag, this`current, this`next, this`difficulty, board
      ensures Valid() && state == (if Select in jp then Play else if Airboy in jp then Help else Menu)
      ensures Select in jp ==>
        var (s, p, q) := Opening(rs.first, rs.second);
        Others() == old(Others()).(cells := EmptyGrid(), current := Some(Piece(p, SpawnX(p), 0, 0)),
                                   next := Some(Preview(q)), bag := Some(s))
      ensures Select !in jp ==>
        Others() == old(Others()).(difficulty := if Airboy in jp then old(difficulty) else MenuDifficulty(old(difficulty), jp))
    {
      if Select in jp {
        NewGame(rs.first, rs.second);
      } else if Airboy in jp {
        state := Help;
      } else {
        MenuInput(jp);
      }
    }

    /** handleinput: the state machine on SELECT and AIRBOY, the difficulty
        buttons in MENU, and the piece controls in PLAY. */
    method HandleInput(input: Input, rs: Randoms)
      requires Valid() && InRange(rs)
      modifies this, board
      ensures Valid() && frame == old(frame) && score >= old(score)
      ensures var jp := input.justPressed;
        old(state) == Dead ==> state == (if Select in jp then Menu else Dead)
      ensures var jp := input.justPressed;
        old(state) == Pause ==> state == (if Select in jp then Play else Pause)
      ensures var jp := input.justPressed;
        old(state) == Help ==> state == (if Select in jp then Menu else Help)
      ensures var jp := input.justPressed;
        old(state) == Menu ==> state == (if Select in jp then Play else if Airboy in jp then Help else Menu)
      ensures var jp := input.justPressed;
        old(state) == Play ==> state == (if Select in jp then Pause else Play)
      ensures var jp := input.justPressed;
        old(state) == Dead || old(state) == Pause || old(state) == Help || (old(state) == Play && Select in jp) ==>
        Others() == old(Others())
      ensures var jp := input.justPressed;
        old(state) == Menu && Select in jp ==>
        var (s, p, q) := Opening(rs.first, rs.second);
        Others() == old(Others()).(cells := EmptyGrid(), current := Some(Piece(p, SpawnX(p), 0, 0)),
                                   next := Some(Preview(q)), bag := Some(s))
      ensures var jp := input.justPressed;
        old(state) == Menu && Select !in jp ==>
        Others() == old(Others()).(difficulty := if Airboy in jp then old(difficulty) else MenuDifficulty(old(difficulty), jp))
      ensures var jp := input.justPressed;
        old(state) == Play && Select !in jp ==>
        difficulty == old(difficulty) && Clock() == TimersStep(old(Clock()), input.pressed) && (X in jp ==> !usedHold)
      ensures var jp := input.justPressed;
        old(state) == Play && Select !in jp && X !in jp && Y !in jp ==>
        Others() == old(Others()).(current := Some(Slid(Cells(board), Spun(Cells(board), old(current.value), jp),
                                                        old(Clock()), input.pressed)),
                                   clock := TimersStep(old(Clock()), input.pressed))
    {
      var jp := input.justPressed;
      if state == Dead {
        if Select in jp {
          state := Menu;
        }
      } else if state == Pause {
        if Select in jp {
          state := Play;
        }
      } else if state == Help {
        if Select in jp {
          state := Menu;
        }
      } else if state == Menu {
        MenuStep(jp, rs);
      } else {
        if Select in jp {
          state := Pause;
        } else {
          PlayInput(input, rs);
        }
      }
    }

    /** The frame counter advances by one, wrapping at 360000. */
    method Tick()
      requires Valid()
      modifies this`frame
      ensures Valid() && frame == (old(frame) + 1) % FrameWrap
      ensures Others() == old(Others()).(frame := (old(frame) + 1) % FrameWrap)
    {
      frame := frame + 1;
      if frame >= FrameWrap {
        frame := 0;
      }
    }

    /** The gravity step of update, taken only in PLAY. */
    method PlayGravity(random: nat)
      requires Valid() && random < RandomRange
      modifies this`current, this`next, this`hold, this`bag, this`usedHold, this`state, this`score, board
      ensures Valid() && score >= old(score)
      ensures old(state) != Play ==> state == old(state) && Others() == old(Others())
      ensures old(state) == Play ==> state == Play || state == Dead
      ensures old(state) == Play && !old(Lands()) ==> state == Play
      ensures old(state) == Play && !old(Due()) ==> state == Play && Others() == old(Others())
      ensures old(state) == Play && old(Due()) && !old(Lands()) ==>
        state == Play && Others() == old(Others()).(current := Some(old(current.value).(y := old(current.value.y) + BlockSize)))
      ensures old(state) == Play && old(Due()) && old(Lands()) ==>
        var g := LockedIn(old(Cells(board)), old(current.value));
        var (s, k) := Draw(old(bag.value), random);
        Cells(board) == ClearLines(g) && score == old(score) + LineScore(FullCount(g[1..])) &&
        current == Some(Spawned(old(next.value))) && bag == Some(s) && !usedHold &&
        state == (if old(current.value.y) == 0 then Dead else Play) &&
        (state == Dead ==> next == None && hold == None) &&
        (state == Play ==> next == Some(Preview(k)) && hold == old(hold))
    {
      if state == Play {
        Gravity(random);
      }
    }

    /** update without the frame counter: handleinput, then one gravity step
        in PLAY. */
    method Advance(input: Input, rs: Randoms)
      requires Valid() && InRange(rs)
      modifies this, board
      ensures Valid() && frame == old(frame) && score >= old(score)
      ensures var jp := input.justPressed;
        old(state) == Dead ==> state == (if Select in jp then Menu else Dead)
      ensures var jp := input.justPressed;
        old(state) == Help ==> state == (if Select in jp then Menu else Help)
      ensures var jp := input.justPressed;
        old(state) == Menu ==> state == (if Select in jp then Play else if Airboy in jp then Help else Menu)
      ensures var jp := input.justPressed;
        (old(state) == Pause && Select !in jp) || (old(state) == Play && Select in jp) ==> state == Pause
      ensures var jp := input.justPressed;
        (old(state) == Play && Select !in jp) || (old(state) == Pause && Select in jp) ==> state == Play || state == Dead
      ensures var jp := input.justPressed;
        old(state) == Dead || old(state) == Help || (Playing(old(state)) && state == Pause) ==>
        Others() == old(Others())
      ensures var jp := input.justPressed;
        old(state) == Menu && Select !in jp ==>
        Others() == old(Others()).(difficulty := if Airboy in jp then old(difficulty) else MenuDifficulty(old(difficulty), jp))
    {
      HandleInput(input, rs);
      if old(state) == Menu && state == Play {
        SpawnFallsFree(current.value.kind);
      }
      PlayGravity(rs.fall);
    }

    /** update without drawing: handle the input, run gravity in PLAY, advance
        the frame counter, wrapping at 360000. */
    method Update(input: Input, rs: Randoms)
      requires Valid() && InRange(rs)
      modifies this, board
      ensures Valid() && frame == (old(frame) + 1) % FrameWrap && score >= old(score)
      ensures var jp := input.justPressed;
        old(state) == Dead ==> state == (if Select in jp then Menu else Dead)
      ensures var jp := input.justPressed;
        old(state) == Help ==> state == (if Select in jp then Menu else Help)
      ensures var jp := input.justPressed;
        old(state) == Menu ==> state == (if Select in jp then Play else if Airboy in jp then Help else Menu)
      ensures var jp := input.justPressed;
        (old(state) == Pause && Select !in jp) || (old(state) == Play && Select in jp) ==> state == Pause
      ensures var jp := input.justPressed;
        (old(state) == Play && Select !in jp) || (old(state) == Pause && Select in jp) ==> state == Play || state == Dead
      ensures var jp := input.justPressed;
        old(state) == Dead || old(state) == Help || (Playing(old(state)) && state == Pause) ==>
        Others() == old(Others()).(frame := (old(frame) + 1) % FrameWrap)
      ensures var jp := input.justPressed;
        old(state) == Menu && Select !in jp ==>
        Others() == old(Others()).(frame := (old(frame) + 1) % FrameWrap,
          difficulty := if Airboy in jp then old(difficulty) else MenuDifficulty(old(difficulty), jp))
    {
      Advance(input, rs);
      Tick();
    }
  }
}
