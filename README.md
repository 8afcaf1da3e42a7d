# Mijakspad gameplay core in Dafny

Mijakspad is a falling-block puzzle game for a handheld console. This project models the whole gameplay simulation of `mijakspad/main/mijakspad.cpp` without its drawing:

- the shape table `block_lookup`;
- the 7-bag randomizer `Bag`;
- the falling piece `Tetromino`;
- the 15 x 10 board and its line clear;
- the `Mijakspad` controller: `setup`, `changedifficulty`, `newgame`, `checklines`, `handleinput`, and the PLAY branch of `update`.

The project is split into five modules:

- `Shapes` (shapes.dfy) holds the literal shape table, its bounding boxes, and the facts about both.
- `Randomizer` (bag.dfy) holds the bag as an abstract value (`BagState`, `Draw`) and the `Bag` class, whose array of seven marks and live count the methods update in place. `GeneratePiece` is proved equal to `Draw`, and the fairness of the bag is proved about `Draw`.
- `Board` (board.dfy) gives the grid-level specification of a line clear (`ClearLines`). It also holds the in-place row operations on the `array2<int>` board that `checklines` is made of. Their loops are proved against that specification.
- `Pieces` (tetromino.dfy) gives the piece as a value (`Piece`) and what `move`, `rotate`, `fall` and `hardfall` do to it (`Moved`, `Rotated`, `Fallen`, `Dropped`). It also holds the `Tetromino` class with its pixel offsets array and bounding box. The class's methods are proved against those functions.
- `Game` (game.dfy) is the controller class `Mijakspad`. Its fields are the board array, the three piece slots, the bag, the hold flag, the score, the frame counter, the six auto-repeat fields, the speed-up, the mode and the difficulty.

Randomness comes in as 32-bit words (`esp_random()` is a parameter). One tick of the controller consumes the random words of a `Randoms` record, one per place that may draw a piece.

Behaviours kept exactly as the code has them:

- `newgame` keeps the score, the hold slot and the hold flag. The model shows that the hold slot and flag are always empty outside a game, so keeping them is harmless there; the score really carries over.
- A hard drop never ends the game. Only a gravity lock in the top row does.
- DPAD_RIGHT drives `move(true)`, which moves the piece left, and DPAD_LEFT moves it right.
- The auto-repeat counters are never reset to 0 (`CounterNeverResets`).
- The hold swap puts the new current piece at the spawn position without a collision check.
- The board is a static array, so it is all zeros when the controller is constructed; it becomes all -1 only when `setup` runs.
- In MENU, SELECT starts a game and AIRBOY opens HELP. Only when neither is pressed do START, DOWN, UP, LEFT and RIGHT each step the difficulty, in that order.

## Model

| member | source | states |
|---|---|---|
| Shapes.Rotations | mijakspad/main/mijakspad.cpp:174-217 | The table has four rotation states per kind and four cells per state, each cell with both coordinates in 0..3. |
| Shapes.Shape | mijakspad/main/mijakspad.cpp:174-217 | `block_lookup[k][r]` has four cells, each inside the 4x4 box. |
| Shapes.ShapeIsTable | mijakspad/main/mijakspad.cpp:174-217 | Indexing the table by kind and rotation returns exactly the literal entry. |
| Shapes.ShapeCellsDistinct | mijakspad/main/mijakspad.cpp:174-217 | Every entry of the table names four pairwise-different cells. |
| Shapes.ORotationInvariant | mijakspad/main/mijakspad.cpp:193-198 | The O piece has the same four cells in all four rotation states. |
| Shapes.ExtentsTight | mijakspad/main/mijakspad.cpp:652-672 | The smallest and largest column and row offsets of an entry bound all four cells, and each is reached by some cell. |
| Shapes.ExtentsInBox | mijakspad/main/mijakspad.cpp:174-217 | The extents lie in 0..3, with min <= max on each axis. |
| Shapes.BoxIsExtents | mijakspad/main/mijakspad.cpp:174-217 | The literal bounding-box table (`Box`) equals the extents computed from the shape table. I and O have their own boxes, and J, L, S, T and Z share one box per rotation state. |
| Randomizer.FreshValid | mijakspad/main/mijakspad.cpp:612-616 | A filled bag (all marks clear, count 7) is consistent: the count equals the number of unused slots. |
| Randomizer.Refilled | mijakspad/main/mijakspad.cpp:621-622 | `fillbag` runs first when the bag is empty; a consistent bag stays consistent and is non-empty after it. |
| Randomizer.DiceRoll | mijakspad/main/mijakspad.cpp:624 | The corrected scaling of a 32-bit word into the live range yields an index below a positive `bag_size`. |
| Randomizer.DiceRollAsWritten | mijakspad/main/mijakspad.cpp:624 | The scaling as written, dividing by 4294967295, yields an index of at most `bag_size`, so it can equal it. |
| Randomizer.DiceRollAsWrittenOverruns | mijakspad/main/mijakspad.cpp:624 | With a full bag and the top random word, the scaling as written gives index 7, one past the seven marks. |
| Randomizer.DiceRollsDiffer | mijakspad/main/mijakspad.cpp:624 | With a full bag and the word 1227133513 the scaling as written gives start slot 2 and the corrected one gives 1. |
| Randomizer.Prev | mijakspad/main/mijakspad.cpp:628-630 | One probe step goes back one slot and wraps from 0 to 6; it equals `(d - 1) mod 7`. |
| Randomizer.Probe | mijakspad/main/mijakspad.cpp:627-631 | The backward probe ends on a valid slot. |
| Randomizer.ProbeFindsUnused | mijakspad/main/mijakspad.cpp:627-631 | When some slot is unused, the probe started anywhere stops on an unused slot. So the loop terminates and never needs more than seven steps. |
| Randomizer.Draw | mijakspad/main/mijakspad.cpp:619-636 | `generatepiece` on the abstract bag: refill, scale the word, probe back to an unused slot, mark it and lower the count. Its properties are stated by DrawTakesUnused, DrawWithinCycle and SevenDrawsAreAPermutation. |
| Randomizer.DrawTakesUnused | mijakspad/main/mijakspad.cpp:619-636 | One draw refills an empty bag, takes a slot that was unused and marks it, lowers the count by one, and keeps the bag consistent. |
| Randomizer.DrawMany | mijakspad/main/mijakspad.cpp:619-636 | Successive draws keep the bag consistent and yield one kind per random word. |
| Randomizer.DrawWithinCycle | mijakspad/main/mijakspad.cpp:619-636 | Within one cycle, with no refill, the draws are pairwise distinct and were each unused at the start. The slots marked at the end are exactly the old marks plus the draws, and the count drops by the number of draws. |
| Randomizer.SevenDrawsAreAPermutation | mijakspad/main/mijakspad.cpp:612-636 | Seven draws from a fresh or emptied bag yield each of the seven kinds exactly once and leave the count at 0. |
| Randomizer.Opening | mijakspad/main/mijakspad.cpp:435-438 | The bag of a new game after its two opening draws is consistent and holds five unused kinds. |
| Randomizer.OpeningDistinct | mijakspad/main/mijakspad.cpp:435-438 | The first current piece and the first next piece of a game are of different kinds. |
| Randomizer.Bag.constructor | mijakspad/main/mijakspad.cpp:606-609 | A new bag is the filled bag. |
| Randomizer.Bag.FillBag | mijakspad/main/mijakspad.cpp:612-616 | `fillbag` clears all seven marks and sets the count to 7. |
| Randomizer.Bag.ProbeBack | mijakspad/main/mijakspad.cpp:627-631 | The probe loop on the mark array stops at the slot `Probe` names, and that slot is unused. |
| Randomizer.Bag.GeneratePiece | mijakspad/main/mijakspad.cpp:619-636 | `generatepiece` changes the bag exactly as `Draw` does and returns the kind `Draw` returns; the bag stays consistent. |
| Board.EmptyGrid | mijakspad/main/mijakspad.cpp:109-111 | The all -1 board is well formed. |
| Board.FullCountSplit | mijakspad/main/mijakspad.cpp:445-466 | Each scanned row is either counted as full or kept, so the removed and the kept rows add up to the rows scanned. |
| Board.NonFullKeepsRows | mijakspad/main/mijakspad.cpp:445-466 | Every kept row is a row that was not full, taken from the input. |
| Board.ClearLines | mijakspad/main/mijakspad.cpp:442-466 | The grid-level line clear: one empty row per full row among rows 1..14, then row 0, then the non-full rows in order; the result is a 15 x 10 grid. Its properties are stated by the ClearLines lemmas. |
| Board.LineScore | mijakspad/main/mijakspad.cpp:467-482 | The score of a clear is between 0 and 800, and positive exactly for 1 to 4 lines. |
| Board.ClearLinesNoneFull | mijakspad/main/mijakspad.cpp:442-466 | With no full row among rows 1..14, the line clear leaves the board as it is and counts 0 lines. |
| Board.ClearLinesSingle | mijakspad/main/mijakspad.cpp:442-466 | With exactly one full row i among rows 1..14, the rows above i move down by one, row 0 becomes empty, the rows below stay, and 1 line is counted. |
| Board.ClearLinesWellFormed | mijakspad/main/mijakspad.cpp:442-466 | A line clear keeps every cell empty or a piece kind. |
| Board.ClearRow | mijakspad/main/mijakspad.cpp:455-457 | Emptying row r sets its ten cells to -1 and leaves every other cell. |
| Board.CopyRow | mijakspad/main/mijakspad.cpp:458-461 | Copying row src over row dst changes row dst only. |
| Board.RemoveRow | mijakspad/main/mijakspad.cpp:455-464 | Removing full row i in place leaves an empty row 0, then old rows 0..i-1, then old rows i+1..14. |
| Board.ClearGrid | mijakspad/main/mijakspad.cpp:431-433 | The nested loops leave every cell at -1. |
| Board.IsLine | mijakspad/main/mijakspad.cpp:446-452 | The row test returns true exactly when no cell of the row is -1. |
| Board.RemoveFullRows | mijakspad/main/mijakspad.cpp:444-466 | The scan of rows 1..14 leaves first one empty row per full row, then the original row 0, then the non-full rows 1..14 in their order. It returns the number of full rows among the original rows 1..14. |
| Pieces.OutOfBounds | mijakspad/main/mijakspad.cpp:688 | The pixel bounds test of checkcollision on the bounding box; InBoundsCells states what it means in cells. |
| Pieces.Collides | mijakspad/main/mijakspad.cpp:686-700 | checkcollision on a board value: out of bounds, or some cell occupied; CollisionFreeIff states it cell by cell. |
| Pieces.InBoundsCells | mijakspad/main/mijakspad.cpp:686-700 | For a grid-aligned piece, the pixel bounds test passes exactly when all four cells lie in columns 0..9 and rows 0..14. |
| Pieces.CollisionFreeIff | mijakspad/main/mijakspad.cpp:686-700 | For a grid-aligned piece, checkcollision is false exactly when all four cells are on the board and hold -1. |
| Pieces.Locked | mijakspad/main/mijakspad.cpp:675-683 | `setblocks` sets exactly the piece's four cells to its kind, and every other cell keeps its value. |
| Pieces.LockedWellFormed | mijakspad/main/mijakspad.cpp:675-683 | Writing a piece keeps every cell empty or a kind. |
| Pieces.RestY | mijakspad/main/mijakspad.cpp:733-736 | The row where `while (!fall())` stops; its properties are stated by RestYStops and RestYPassesFree. |
| Pieces.RestYStops | mijakspad/main/mijakspad.cpp:733-736 | The row where a hard fall rests is on or below the start, inside the play area, and collides one row further down. |
| Pieces.RestYPassesFree | mijakspad/main/mijakspad.cpp:733-736 | Every row a hard fall passes through on the way is collision free. |
| Pieces.ExtremesAt | mijakspad/main/mijakspad.cpp:657-671 | Cells that bound all four cells of an entry give its minimum and maximum offsets. |
| Pieces.Turned | mijakspad/main/mijakspad.cpp:773-781 | A rotation step adds -1 or +1 and folds back into 0..3 (the result is `(r +- 1) mod 4`). |
| Pieces.TurnedInverse | mijakspad/main/mijakspad.cpp:771-789 | Turning left undoes turning right and vice versa, and four turns the same way return to the start. |
| Pieces.ScaleCells | mijakspad/main/mijakspad.cpp:657-671 | The `moveblocks` loop writes 16 times each table offset. The four box values are 16 times offsets of cells that bound all four cells: the minima for bx/by and the maxima for bw/bh. |
| Pieces.Moved | mijakspad/main/mijakspad.cpp:792-803 | `move` shifts x by 16 - 32*left exactly when the shifted piece does not collide, and otherwise leaves the piece. The piece stays inside, and a collision-free piece stays collision free. |
| Pieces.Rotated | mijakspad/main/mijakspad.cpp:771-789 | `rotate` takes the turned rotation exactly when the turned piece does not collide, and otherwise leaves the piece. The rotation stays in 0..3, and a collision-free piece stays collision free. |
| Pieces.Fallen | mijakspad/main/mijakspad.cpp:715-730 | `fall` locks exactly when the piece one row down collides. A lock leaves the piece where it was; otherwise it is one row down and collision free. |
| Pieces.Dropped | mijakspad/main/mijakspad.cpp:733-736 | `hardfall` leaves the piece in its column and rotation, on or below the start, inside the play area, with a collision one row below. |
| Pieces.DroppedPassesFree | mijakspad/main/mijakspad.cpp:733-736 | Every row between the start and the resting row is collision free. |
| Pieces.FallenTowardsDropped | mijakspad/main/mijakspad.cpp:715-736 | A gravity step that locks happens where a hard fall would rest, and one that falls keeps the same resting row. |
| Pieces.WriteCells | mijakspad/main/mijakspad.cpp:675-683 | The `setblocks` loop on a piece value leaves the board equal to `Locked`. |
| Pieces.Tetromino.constructor | mijakspad/main/mijakspad.cpp:639-649 | A new piece is at (x, y) in rotation 0, with offsets and box consistent with the table. |
| Pieces.Tetromino.MoveBlocks | mijakspad/main/mijakspad.cpp:652-672 | The offsets are 16 times the table entry, bx/by are 16 times the minimum offsets, and bw/bh are 16 times the maximum offsets. |
| Pieces.Tetromino.CheckCollision | mijakspad/main/mijakspad.cpp:686-700 | The pixel bounds test on the box fields, then the occupancy test, returns `Collides` for the current board. |
| Pieces.Tetromino.SetBlocks | mijakspad/main/mijakspad.cpp:675-683 | The board becomes `Locked` of the old board and the piece. |
| Pieces.Tetromino.Fall | mijakspad/main/mijakspad.cpp:715-730 | The result and the new piece are `Fallen` of the old board and piece. The board changes only on a lock, and then by writing exactly the piece's cells. |
| Pieces.Tetromino.HardFall | mijakspad/main/mijakspad.cpp:733-736 | The `while (!fall())` loop terminates and locks the piece at `Dropped`. |
| Pieces.Tetromino.Move | mijakspad/main/mijakspad.cpp:792-803 | The piece becomes `Moved` of the board and the old piece, and the board is not written. |
| Pieces.Tetromino.Rotate | mijakspad/main/mijakspad.cpp:771-789 | The piece becomes `Rotated` of the board and the old piece, and the board is not written. |
| Pieces.Tetromino.SetX | mijakspad/main/mijakspad.cpp:739-742 | `setx` sets x. |
| Pieces.Tetromino.SetY | mijakspad/main/mijakspad.cpp:745-748 | `sety` sets y. |
| Pieces.Tetromino.SetRotation | mijakspad/main/mijakspad.cpp:763-768 | `setrotation` sets the rotation and recomputes offsets and box. |
| Game.Cycled | mijakspad/main/mijakspad.cpp:396-413 | `changedifficulty` on a value: it keeps a difficulty a difficulty and leaves any other value as it is. |
| Game.CycledInverse | mijakspad/main/mijakspad.cpp:396-413 | `changedifficulty(true)` and `changedifficulty(false)` undo each other, for every value. |
| Game.CycledPeriod | mijakspad/main/mijakspad.cpp:396-413 | Three steps the same way return to the start. One step always changes the difficulty and keeps it in {100, 80, 50}, and two steps do not return. |
| Game.MenuDifficulty | mijakspad/main/mijakspad.cpp:506-523 | The MENU buttons keep the difficulty in {100, 80, 50}. |
| Game.MenuOppositesCancel | mijakspad/main/mijakspad.cpp:506-523 | In MENU, DOWN with UP, LEFT with RIGHT, and START with RIGHT, pressed on the same tick, leave the difficulty as it was. |
| Game.SpawnX | mijakspad/main/mijakspad.cpp:140 | The spawn column, 16 * (O ? 4 : 3), is grid-aligned and inside the field width. |
| Game.SpawnInside | mijakspad/main/mijakspad.cpp:437 | Every kind in rotation 0 at x = 16 * (O ? 4 : 3), y = 0 lies inside the play area. |
| Game.Spawned | mijakspad/main/mijakspad.cpp:140-141 | Moving a piece to the spawn position keeps its kind and rotation, and a piece in rotation 0 is then inside the play area. |
| Game.RepeatStep | mijakspad/main/mijakspad.cpp:571-600 | One tick of an auto-repeat block: it fires only while held, and a firing sets timeout and counter to the first or the repeat value; a release clears the timeout and keeps the counter. |
| Game.TimersStep | mijakspad/main/mijakspad.cpp:570-600 | One tick of all three repeat blocks: the speed-up is 1 whenever DOWN is not held, and is otherwise 10 or unchanged. |
| Game.RepeatRun | mijakspad/main/mijakspad.cpp:570-600 | An auto-repeat timer run over n ticks reports one outcome per tick. |
| Game.CounterNeverResets | mijakspad/main/mijakspad.cpp:570-600 | Once an auto-repeat counter has left 0, it is its old value or the repeat value for ever; it never returns to 0. |
| Game.PressAfterReleaseFires | mijakspad/main/mijakspad.cpp:570-600 | After a release, the next press fires at once. |
| Game.HeldQuiet | mijakspad/main/mijakspad.cpp:570-600 | A button held without a break, with a live counter, stays quiet for `timeout` ticks while the timeout counts down. |
| Game.HeldFires | mijakspad/main/mijakspad.cpp:570-600 | A button held that way fires on the tick after that, and the timer restarts at the repeat value (10 for the moves, 2 for DOWN). |
| Game.RepeatRunSplit | mijakspad/main/mijakspad.cpp:570-600 | Running one more held tick after a run appends that tick's outcome. |
| Game.Mijakspad.constructor | mijakspad/main/mijakspad.cpp:75-105 | The controller starts in MENU at EASY with speed-up 1, score 0, frame 0, all six auto-repeat timeouts and counters 0, no pieces, and an all-zero board. |
| Game.Mijakspad.Setup | mijakspad/main/mijakspad.cpp:107-112 | `setup` sets every cell to -1. |
| Game.Mijakspad.ChangeDifficulty | mijakspad/main/mijakspad.cpp:396-413 | The new difficulty is `Cycled` of the old one, in the given direction. |
| Game.Mijakspad.CheckLines | mijakspad/main/mijakspad.cpp:442-483 | The board becomes `ClearLines` of the old board. The score grows by 100/300/500/800 for 1/2/3/4 full rows among rows 1..14 and by 0 otherwise, and the board stays well formed. |
| Game.Mijakspad.NewGame | mijakspad/main/mijakspad.cpp:427-439 | `newgame` switches to PLAY with an empty board and a new bag. The first draw spawns as current and the second is shown as next. Score, hold slot and hold flag are left as they were. |
| Game.Mijakspad.Settle | mijakspad/main/mijakspad.cpp:131-141 | After a lock: checklines, the next piece becomes current at the spawn position, a new next piece is drawn, and the hold is allowed again. |
| Game.Mijakspad.Lock | mijakspad/main/mijakspad.cpp:126-152 | A gravity lock writes the piece and clears lines, and then promotes and draws. A lock at y == 0 sets DEAD and empties the next and hold slots; otherwise the game goes on with the hold slot kept. |
| Game.Mijakspad.Due | mijakspad/main/mijakspad.cpp:125 | Gravity acts on the frames that are multiples of difficulty / speedup; Gravity states what happens on both kinds of frame. |
| Game.Mijakspad.Gravity | mijakspad/main/mijakspad.cpp:125-153 | On a frame that is not due, nothing changes. On a due frame the piece falls one row if it can; otherwise it locks, with all the effects of `Lock`. The score never decreases. |
| Game.Mijakspad.HoldPiece | mijakspad/main/mijakspad.cpp:535-555 | With the hold flag set, Y changes nothing. Otherwise the old current goes to the hold display (210, 105) in rotation 0, and the held piece, or on the first hold the next piece with a new next drawn, becomes current at the spawn position without a collision check. The flag is then set. |
| Game.Mijakspad.HardDrop | mijakspad/main/mijakspad.cpp:556-569 | X locks the piece at `Dropped`, clears lines, promotes the next piece, draws a new next and clears the hold flag; it never changes the mode. |
| Game.Mijakspad.LeftRepeat | mijakspad/main/mijakspad.cpp:571-579 | The DPAD_RIGHT block follows `RepeatStep` with 20 and 10, and each firing moves the piece left. |
| Game.Mijakspad.RightRepeat | mijakspad/main/mijakspad.cpp:581-589 | The DPAD_LEFT block follows `RepeatStep` with 20 and 10, and each firing moves the piece right. |
| Game.Mijakspad.DownRepeat | mijakspad/main/mijakspad.cpp:590-600 | The DOWN block follows `RepeatStep` with 10 and 2. The speed-up becomes 10 when it first fires and 1 on release, and is otherwise unchanged. |
| Game.Spun | mijakspad/main/mijakspad.cpp:529-534 | A and B on a piece value: each turn is undone on collision, so the kind and position are kept, an inside and collision-free piece stays so, and with neither button the piece is unchanged. |
| Game.Slid | mijakspad/main/mijakspad.cpp:571-589 | The two sideways repeat blocks on a piece value: each moves the piece when its `RepeatStep` fires. Kind, row and rotation are kept, an inside and collision-free piece stays so, and with neither DPAD_LEFT nor DPAD_RIGHT held the piece is unchanged. |
| Game.Mijakspad.Turns | mijakspad/main/mijakspad.cpp:529-534 | A rotates right, then B rotates left, each undone on collision: the piece becomes `Spun` of the board and the old piece. |
| Game.Mijakspad.HoldAndDrop | mijakspad/main/mijakspad.cpp:535-569 | Without Y or X nothing changes, and after X the hold is allowed again. The mode stays PLAY and the score never decreases. |
| Game.Mijakspad.Actions | mijakspad/main/mijakspad.cpp:529-569 | Without Y or X the board, score, slots, bag and hold flag are kept and the piece becomes `Spun` of the old one, so only its rotation may change. After X the hold is allowed again. |
| Game.Mijakspad.Repeats | mijakspad/main/mijakspad.cpp:570-600 | The three timers and the speed-up take one `TimersStep`, and the piece becomes `Slid` of the old piece under the old timers. |
| Game.Mijakspad.PlayInput | mijakspad/main/mijakspad.cpp:528-601 | The PLAY controls: without Y or X the board, score, slots, bag and hold flag are kept and the piece becomes `Slid` of `Spun` of the old piece. The timers take one `TimersStep`, after X the hold is allowed again, and the score never decreases. |
| Game.Mijakspad.MenuInput | mijakspad/main/mijakspad.cpp:506-523 | The difficulty becomes `MenuDifficulty` of the old one and the buttons just pressed. |
| Game.Mijakspad.MenuStep | mijakspad/main/mijakspad.cpp:500-523 | SELECT gives the state of a new game (empty board, the `Opening` bag, current and next), AIRBOY moves to HELP and changes nothing else, and otherwise only the difficulty changes, to `MenuDifficulty`. |
| Game.Mijakspad.HandleInput | mijakspad/main/mijakspad.cpp:486-603 | SELECT moves DEAD to MENU, PAUSE to PLAY, HELP to MENU, PLAY to PAUSE, and MENU to PLAY via newgame; AIRBOY moves MENU to HELP. In DEAD, PAUSE and HELP, and on PLAY to PAUSE, everything but the mode is kept. In MENU it passes up `MenuStep`. In PLAY without SELECT the difficulty is kept and the timers take one `TimersStep`; without X or Y too, only the piece and the timers change, as `PlayInput` states. The frame is kept, the invariant holds, and the score never decreases. |
| Game.Mijakspad.Tick | mijakspad/main/mijakspad.cpp:159-161 | The frame counter advances by one and wraps at 360000. |
| Game.SpawnFallsFree | mijakspad/main/mijakspad.cpp:427-439 | The first piece of a new game, at its spawn position on the empty board, can fall one row, so the tick that starts a game never ends it. |
| Game.Mijakspad.PlayGravity | mijakspad/main/mijakspad.cpp:120-153 | Gravity acts only in PLAY: in any other mode the controller is unchanged. From PLAY, on a frame that is not due nothing changes; on a due frame the piece falls one row if it can, with nothing else changed; otherwise it locks with all the effects of `Lock`, DEAD exactly when the old row is 0. |
| Game.Mijakspad.Advance | mijakspad/main/mijakspad.cpp:114-153 | handleinput followed by gravity in PLAY, with the frame kept: the new mode for each old mode and button, and the unchanged state in the cases where no piece moves. |
| Game.Mijakspad.Update | mijakspad/main/mijakspad.cpp:114-162 | One tick keeps the controller invariant, advances the frame counter mod 360000, and never lowers the score. The new mode per old mode: SELECT takes DEAD and HELP to MENU, and without it they stay. MENU goes to PLAY on SELECT (never straight to DEAD), to HELP on AIRBOY, and otherwise stays. PLAY with SELECT and PAUSE without it give PAUSE. PAUSE with SELECT and PLAY without it give PLAY or DEAD, since gravity runs in the same tick. In DEAD, HELP, and on entering or staying in PAUSE, only the frame changes; in MENU without SELECT only the frame and the difficulty change. |

## Left out

- Rendering: `drawsprite`, `drawui`, `drawboard`, `Tetromino::draw` and every display and renderer call. They only produce pixels through the engine.
- `app_main`, FreeRTOS, the engine's construction and its run loop, and the `delta` argument of `update`. They are host bootstrapping and real-time pacing; only the integer frame counter is modelled.
- `esp_random()`. The random word is a parameter.
- Randomizer.Draw and Randomizer.Bag.GeneratePiece: they model the corrected scaling of line 624, `floor(bag_size * w / 2^32)`, not the code's `bag_size / 4294967295 * w` in floating point. So the model never yields index 7, and for a few words it picks a different start slot than the code: with a full bag and w = 1227133513 the code gives floor(7 * w / 4294967295) = 2 but the model gives 1 (DiceRollsDiffer). The code as written is modelled by DiceRollAsWritten (see Findings); a double rounding beyond that exact form is not modelled.
- `score` is a 32-bit `int` in the code (line 83) and an unbounded integer in the model; an overflow after about 2.6 million cleared tetrises is not modelled.
- The `new`/`free` lifetime of the piece pointers. The controller holds its current, next and hold pieces as `Option<Piece>` values and the bag as a `BagState` value. The piece operations it applies are the functions `Moved`, `Rotated`, `Fallen` and `Dropped`, which the `Tetromino` class methods are proved to implement; the controller does not create `Tetromino` objects.
- The unused global `bag`, `bag_size`, `usedhold`, `score` and `next` at lines 25-30. The class members shadow them.
- Pieces.Tetromino.CheckCollision: requires x and y to be multiples of 16, which holds for every piece in play; for such coordinates C's truncating division equals Dafny's.
- Pieces.Tetromino.SetBlocks: requires x and y to be multiples of 16, which holds for every piece in play; for such coordinates C's truncating division equals Dafny's.
- Pieces.Tetromino.Fall: requires x and y to be multiples of 16, which holds for every piece in play; for such coordinates C's truncating division equals Dafny's.
- Pieces.Tetromino.HardFall: requires x and y to be multiples of 16, which holds for every piece in play; for such coordinates C's truncating division equals Dafny's.
- Pieces.Tetromino.Move: requires x and y to be multiples of 16, which holds for every piece in play; for such coordinates C's truncating division equals Dafny's.
- Pieces.Tetromino.Rotate: requires x and y to be multiples of 16, which holds for every piece in play; for such coordinates C's truncating division equals Dafny's.
- Pieces.Tetromino.GetY and GetType are plain field reads and carry no contract.
- Game.Mijakspad.Settle, Lock, Gravity, PlayGravity, Advance, HoldPiece, HardDrop, Turns, HoldAndDrop, Actions, Repeats, PlayInput, MenuInput, MenuStep and Tick are each a block of inline code of `update` or `handleinput`, written as a method of its own.
- Game.Mijakspad.Lock: the code sets DEAD before `checklines` and frees the next and hold pieces after the promotion and the draw. The model sets DEAD and empties both slots in one step after the draw. The resulting state is the same.
- Game.Mijakspad.HoldAndDrop: when Y or X is pressed, it states only the invariant, the score bound and the cleared hold flag; the exact effect of each button is stated by HoldPiece and HardDrop.
- Game.Mijakspad.Actions: when Y or X is pressed, it states only the invariant, the score bound and the cleared hold flag; the exact effect of each button is stated by HoldPiece and HardDrop.
- Game.Mijakspad.PlayInput: when Y or X is pressed, it states only the invariant, the score bound and the cleared hold flag; the exact effect of each button is stated by HoldPiece and HardDrop.
- Game.Mijakspad.HandleInput: in PLAY with Y or X pressed it states only the mode, the timers, the kept difficulty, the cleared hold flag and the invariant; the exact effect of each button is stated by HoldPiece and HardDrop.
- Game.Mijakspad.Advance: from PLAY, or from PAUSE with SELECT, it states only the mode (PLAY or DEAD), the invariant and the score bound; from MENU with SELECT it states only the mode. The per-button and gravity effects are stated by the methods it calls.
- Game.Mijakspad.Update: from PLAY, or from PAUSE with SELECT, it states only the mode (PLAY or DEAD), the invariant and the score bound; from MENU with SELECT it states only the mode. The per-button and gravity effects are stated by the methods it calls.

## Findings

| source | as written | input that shows it | evidently intended | confidence | as-written member | corrected member |
|---|---|---|---|---|---|---|
| mijakspad/main/mijakspad.cpp:624 | `bag_size / 4294967295 * esp_random()`: the largest random word scales to `bag_size` itself | full bag (`bag_size` 7) and `esp_random()` = 4294967295 gives index 7; `bag[7]` is read outside the seven marks | divide by 2^32 so the index stays in 0..bag_size-1 | not executed | Randomizer.DiceRollAsWritten, Randomizer.DiceRollAsWrittenOverruns | Randomizer.DiceRoll |
