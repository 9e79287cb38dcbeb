/** What the player's keys do, in terms of the cells a piece covers (src/sim_game.cpp:
    SubmitInput, Tick): one column to the left or right, a quarter turn clockwise, one row down
    at most once per three further ticks held, all the way down, in this order. */
module Steering {
  import opened SimGrid
  import opened SimBlock
  import opened SimRules

  // ---------------------------------------------------------------- cells

  /** The cells a piece covers. */
  function Cells(b: Block): set<Position> { set p | p in b.Tiles() }

  function Slid(ps: set<Position>, rows: int, cols: int): set<Position> {
    set p | p in ps :: Position(p.row + rows, p.col + cols)
  }

  /** A quarter turn clockwise within the square of the given size at (row, col). */
  function QuarterTurn(ps: set<Position>, row: int, col: int, size: int): set<Position> {
    set p | p in ps :: Position(row + (p.col - col), col + (size - 1) - (p.row - row))
  }

  /** The side of the square a piece turns in. */
  function BoxSize(id: nat): int { if id == 3 then 4 else if id == 4 then 2 else 3 }

  /** Cells of the board with nothing in them. */
  ghost predicate Free(board: Board, ps: set<Position>) {
    forall p :: p in ps ==> !CellOutside(p.row, p.col) && CellEmpty(board, p.row, p.col)
  }

  lemma FitsIsFree(board: Board, b: Block)
    requires Shaped(board)
    ensures Fits(board, b) <==> Free(board, Cells(b))
  {
    if Fits(board, b) { FitsIsInside(board, b); }
    forall i | 0 <= i < |b.Tiles()|
      ensures b.Tiles()[i] in Cells(b)
    {}
  }

  /** Each covered cell is one of the shape's, moved to where the piece is. */
  lemma CellsAre(b: Block, p: Position)
    ensures p in Cells(b) <==> Position(p.row - b.row, p.col - b.col) in Shape(b.id, b.rot)
  {
    var s, q := Shape(b.id, b.rot), Position(p.row - b.row, p.col - b.col);
    OffsetAt(s, b.row, b.col);
    if p in Cells(b) {
      var i :| 0 <= i < |b.Tiles()| && b.Tiles()[i] == p;
      assert s[i] == q;
    }
    if q in s {
      var i :| 0 <= i < |s| && s[i] == q;
      assert b.Tiles()[i] == p;
    }
  }

  lemma MovedCell(b: Block, rows: int, cols: int, p: Position)
    ensures p in Cells(b.Moved(rows, cols)) <==> Position(p.row - rows, p.col - cols) in Cells(b)
  {
    CellsAre(b.Moved(rows, cols), p);
    CellsAre(b, Position(p.row - rows, p.col - cols));
  }

  lemma SlidCell(ps: set<Position>, rows: int, cols: int, p: Position)
    ensures p in Slid(ps, rows, cols) <==> Position(p.row - rows, p.col - cols) in ps
  {
    var q := Position(p.row - rows, p.col - cols);
    assert Position(q.row + rows, q.col + cols) == p;
  }

  lemma MovedCells(b: Block, rows: int, cols: int)
    ensures Cells(b.Moved(rows, cols)) == Slid(Cells(b), rows, cols)
  {
    forall p
      ensures p in Cells(b.Moved(rows, cols)) <==> p in Slid(Cells(b), rows, cols)
    {
      MovedCell(b, rows, cols, p);
      SlidCell(Cells(b), rows, cols, p);
    }
  }

  /** The next shape of a piece is the one before, turned clockwise in its square. */
  lemma ShapeTurns(id: nat, rot: nat, p: Position)
    requires 1 <= id <= 7 && rot < ROTATIONS
    ensures p in Shape(id, if rot + 1 == ROTATIONS then 0 else rot + 1) <==>
              Position(BoxSize(id) - 1 - p.col, p.row) in Shape(id, rot)
  {}

  lemma RotatedCell(b: Block, p: Position)
    requires b.Valid()
    ensures p in Cells(b.Rotated()) <==>
              Position(b.row + (BoxSize(b.id) - 1) - (p.col - b.col), b.col + (p.row - b.row)) in Cells(b)
  {
    var q := Position(b.row + (BoxSize(b.id) - 1) - (p.col - b.col), b.col + (p.row - b.row));
    CellsAre(b.Rotated(), p);
    CellsAre(b, q);
    ShapeTurns(b.id, b.rot, Position(p.row - b.row, p.col - b.col));
  }

  lemma TurnedCell(ps: set<Position>, row: int, col: int, size: int, p: Position)
    ensures p in QuarterTurn(ps, row, col, size) <==>
              Position(row + (size - 1) - (p.col - col), col + (p.row - row)) in ps
  {
    var q := Position(row + (size - 1) - (p.col - col), col + (p.row - row));
    assert Position(row + (q.col - col), col + (size - 1) - (q.row - row)) == p;
  }

  lemma RotatedCells(b: Block)
    requires b.Valid()
    ensures Cells(b.Rotated()) == QuarterTurn(Cells(b), b.row, b.col, BoxSize(b.id))
  {
    forall p
      ensures p in Cells(b.Rotated()) <==> p in QuarterTurn(Cells(b), b.row, b.col, BoxSize(b.id))
    {
      RotatedCell(b, p);
      TurnedCell(Cells(b), b.row, b.col, BoxSize(b.id), p);
    }
  }

  // ---------------------------------------------------------------- keys

  /** Nothing but the piece's place, and how it last moved, is any different. */
  ghost predicate OnlyPiece(g: Game, h: Game) {
    h == g.(current := h.current, rotatedLast := h.rotatedLast) && h.current.id == g.current.id
  }

  /** h is g with the piece cols columns further right if all the cells there are free; it is
      where it was otherwise. */
  ghost predicate Slides(g: Game, h: Game, cols: int) {
    var target := Slid(Cells(g.current), 0, cols);
    OnlyPiece(g, h) && h.current.rot == g.current.rot &&
    if !g.over && Free(g.board, target) then Cells(h.current) == target && !h.rotatedLast else h == g
  }

  /** ... turned clockwise in its square. */
  ghost predicate Turns(g: Game, h: Game) {
    var b := g.current;
    var target := QuarterTurn(Cells(b), b.row, b.col, BoxSize(b.id));
    OnlyPiece(g, h) && h.current.row == b.row && h.current.col == b.col &&
    if !g.over && Free(g.board, target) then Cells(h.current) == target && h.rotatedLast else h == g
  }

  /** ... one row further down, or locked if it cannot go there. */
  ghost predicate Falls(g: Game, h: Game) {
    var target := Slid(Cells(g.current), 1, 0);
    if g.over then h == g
    else if Free(g.board, target) then
      OnlyPiece(g, h) && h.current.rot == g.current.rot && Cells(h.current) == target && !h.rotatedLast
    else h == Locked(g)
  }

  /** The soft drop: one row, and then not for three ticks. */
  ghost predicate Presses(g: Game, h: Game) {
    if g.soft <= 0 then Falls(g, h.(soft := g.soft)) && h.soft == 3
    else h == g.(soft := g.soft - 1)
  }

  /** The hard drop: down to the last row before the first one that is taken (or one row up if
      the piece covers taken cells), and locked there. */
  ghost predicate Drops(g: Game, h: Game) {
    if g.over then h == g
    else exists rows: int :: LastFree(g.board, Cells(g.current), rows) && h == Locked(At(g, rows))
  }

  function At(g: Game, rows: int): Game { g.(current := g.current.(row := g.current.row + rows)) }

  ghost predicate LastFree(board: Board, ps: set<Position>, rows: int) {
    if Free(board, ps) then
      rows >= 0 && !Free(board, Slid(ps, rows + 1, 0)) && forall k :: 0 <= k <= rows ==> Free(board, Slid(ps, k, 0))
    else rows == -1
  }

  /** The five keys of a mask, in the order they count: left is bit 1, right 2, down 4, rotate 8,
      drop 16. */
  ghost predicate Obeys(g: Game, h: Game, mask: nat) {
    exists a, b, c, d :: Steps(g, a, b, c, d, h, mask)
  }

  ghost predicate Steps(g: Game, a: Game, b: Game, c: Game, d: Game, h: Game, mask: nat) {
    (if mask % 2 == 1 then Slides(g, a, -1) else a == g) &&
    (if mask / 2 % 2 == 1 then Slides(a, b, 1) else b == a) &&
    (if mask / 4 % 2 == 1 then Presses(b, c) else c == b.(soft := 0)) &&
    (if mask / 8 % 2 == 1 then Turns(c, d) else d == c) &&
    (if mask / 16 % 2 == 1 then Drops(d, h) else h == d)
  }

  // ---------------------------------------------------------------- the game obeys

  lemma ShiftedSlides(g: Game, cols: int)
    requires Shaped(g.board)
    ensures Slides(g, Shifted(g, cols), cols)
  {
    MovedCells(g.current, 0, cols);
    FitsIsFree(g.board, g.current.Moved(0, cols));
  }

  lemma TurnedTurns(g: Game)
    requires Shaped(g.board) && g.current.Valid()
    ensures Turns(g, Turned(g))
  {
    RotatedCells(g.current);
    FitsIsFree(g.board, g.current.Rotated());
  }

  lemma LoweredFalls(g: Game)
    requires Shaped(g.board)
    ensures Falls(g, Lowered(g))
  {
    MovedCells(g.current, 1, 0);
    FitsIsFree(g.board, g.current.Moved(1, 0));
  }

  lemma SoftPresses(g: Game)
    requires Shaped(g.board)
    ensures Presses(g, SoftDropped(g, true))
  {
    LoweredFalls(g);
    SoftStays(g);
  }

  /** Nothing but the soft drop touches its counter. */
  lemma SoftStays(g: Game)
    ensures Lowered(g).soft == g.soft
  {
    LockedSoft(g);
  }

  lemma LockedSoft(g: Game)
    ensures Locked(g).soft == g.soft
  {
    var h := Dealt(Entered(Stamped(g)));
    assert h.soft == g.soft;
    CreditedSoft(h, IsTSpin(g));
  }

  lemma CreditedSoft(g: Game, tspin: bool)
    ensures Credited(g, tspin).soft == g.soft
  {}

  lemma DroppedDrops(g: Game)
    requires Shaped(g.board)
    ensures Drops(g, Dropped(g))
  {
    if !g.over {
      FitsIsFree(g.board, g.current);
      if Fits(g.board, g.current) {
        LandsLast(g);
      } else {
        assert LastFree(g.board, Cells(g.current), -1) && Dropped(g) == Locked(At(g, -1));
      }
    }
  }

  lemma FreeAt(board: Board, b: Block, rows: int)
    requires Shaped(board)
    ensures Free(board, Slid(Cells(b), rows, 0)) <==> Fits(board, b.(row := b.row + rows))
  {
    MovedCells(b, rows, 0);
    assert b.Moved(rows, 0) == b.(row := b.row + rows);
    FitsIsFree(board, b.Moved(rows, 0));
  }

  lemma LandsLast(g: Game)
    requires Shaped(g.board) && Fits(g.board, g.current) && !g.over
    ensures Drops(g, Dropped(g))
  {
    var b, l := g.current, Landing(g.board, g.current);
    LandingIsLast(g.board, b);
    var rows := l.row - b.row;
    LandsAt(g.board, b, l, rows);
    assert At(g, rows) == g.(current := l);
  }

  lemma LandsAt(board: Board, b: Block, l: Block, rows: int)
    requires Shaped(board) && Fits(board, b) && rows >= 0 && l == b.(row := b.row + rows)
    requires !Fits(board, l.Moved(1, 0)) && forall r :: b.row <= r <= l.row ==> Fits(board, b.(row := r))
    ensures LastFree(board, Cells(b), rows)
  {
    FitsIsFree(board, b);
    forall k | 0 <= k <= rows
      ensures Free(board, Slid(Cells(b), k, 0))
    {
      FreeAt(board, b, k);
    }
    FreeAt(board, b, rows + 1);
    assert b.(row := b.row + (rows + 1)) == l.Moved(1, 0);
  }

  lemma SlidesIf(g: Game, held: bool, cols: int)
    requires Shaped(g.board)
    ensures if held then Slides(g, ShiftedIf(g, held, cols), cols) else ShiftedIf(g, held, cols) == g
  {
    ShiftedSlides(g, cols);
  }

  lemma TurnsIf(g: Game, held: bool)
    requires Shaped(g.board) && g.current.Valid()
    ensures if held then Turns(g, TurnedIf(g, held)) else TurnedIf(g, held) == g
  {
    TurnedTurns(g);
  }

  lemma PressesIf(g: Game, held: bool)
    requires Shaped(g.board)
    ensures if held then Presses(g, SoftDropped(g, held)) else SoftDropped(g, held) == g.(soft := 0)
  {
    SoftPresses(g);
  }

  lemma Keys(mask: nat)
    ensures HasInput(mask, INPUT_LEFT) <==> mask % 2 == 1
    ensures HasInput(mask, INPUT_RIGHT) <==> mask / 2 % 2 == 1
    ensures HasInput(mask, INPUT_DOWN) <==> mask / 4 % 2 == 1
    ensures HasInput(mask, INPUT_ROTATE) <==> mask / 8 % 2 == 1
    ensures HasInput(mask, INPUT_DROP) <==> mask / 16 % 2 == 1
  {
    assert mask / 1 == mask;
  }

  lemma SteeredSteps(g: Game, mask: nat)
    requires GameOk(g)
    ensures var a := ShiftedIf(g, HasInput(mask, INPUT_LEFT), -1);
            Steps(g, a, Nudged(g, mask), SoftDropped(Nudged(g, mask), HasInput(mask, INPUT_DOWN)), Steered(g, mask),
                  if HasInput(mask, INPUT_DROP) then Dropped(Steered(g, mask)) else Steered(g, mask), mask)
  {
    var a, b := ShiftedIf(g, HasInput(mask, INPUT_LEFT), -1), Nudged(g, mask);
    ShiftedIfOk(g, HasInput(mask, INPUT_LEFT), -1);
    NudgedOk(g, mask);
    SoftOk(b, HasInput(mask, INPUT_DOWN));
    SteeredOk(g, mask);
    Keys(mask);
    SlidesIf(g, HasInput(mask, INPUT_LEFT), -1);
    SlidesIf(a, HasInput(mask, INPUT_RIGHT), 1);
    PressesIf(b, HasInput(mask, INPUT_DOWN));
    TurnsIf(SoftDropped(b, HasInput(mask, INPUT_DOWN)), HasInput(mask, INPUT_ROTATE));
    DroppedDrops(Steered(g, mask));
  }

  /** Every input does what its keys say. */
  lemma InputObeys(g: Game, mask: nat)
    requires GameOk(g)
    ensures if g.over then Submitted(g, mask) == g else Obeys(g, Submitted(g, mask), mask)
  {
    SteeredSteps(g, mask);
  }

  /** A piece that has just been pressed down rests for three ticks with the key held; in the
      fourth it is pressed down again. */
  lemma OnceInFour(g: Game)
    requires g.soft == 3
    ensures var h := SoftDropped(SoftDropped(SoftDropped(g, true), true), true);
            h == g.(soft := 0) && SoftDropped(h, true) == Lowered(h).(soft := 3)
  {}

  // ---------------------------------------------------------------- gravity

  /** Gravity counts up to the pace and then lets the piece fall one row. */
  ghost predicate Pulled(g: Game, h: Game) {
    if g.over then h == g
    else if g.gravity + 1 < g.interval then h == g.(gravity := g.gravity + 1)
    else Falls(g.(gravity := 0), h)
  }

  lemma TickedPulled(g: Game)
    requires Shaped(g.board)
    ensures Pulled(g, Ticked(g))
  {
    LoweredFalls(g.(gravity := 0));
  }

  function TickedTimes(g: Game, n: nat): Game { if n == 0 then g else Ticked(TickedTimes(g, n - 1)) }

  /** Left alone, a piece hangs still until the pace is reached, and falls in just that tick. */
  lemma {:induction false} FallsAtPace(g: Game, n: nat)
    requires Shaped(g.board) && !g.over && g.gravity + n < g.interval
    ensures TickedTimes(g, n) == g.(gravity := g.gravity + n)
    ensures g.gravity + n + 1 == g.interval ==> Falls(g.(gravity := 0), TickedTimes(g, n + 1))
  {
    if n > 0 { FallsAtPace(g, n - 1); }
    if g.gravity + n + 1 == g.interval { LoweredFalls(g.(gravity := 0)); }
  }

  /** From 30 ticks a row at the start to 3 at the highest level, never slower with more rows
      cleared. */
  lemma PaceQuickens(fewer: int, more: int)
    requires 0 <= fewer <= more
    ensures 1 <= LevelFor(fewer) <= LevelFor(more) <= 20
    ensures 30 >= IntervalFor(LevelFor(fewer)) >= IntervalFor(LevelFor(more)) >= 3
    ensures IntervalFor(LevelFor(0)) == 30 && (more >= 190 ==> IntervalFor(LevelFor(more)) == 3)
  {}
}
