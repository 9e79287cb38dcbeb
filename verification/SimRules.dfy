/** The rules of src/sim_game.cpp on plain values: what locking a piece, clearing rows,
    scoring and garbage do to a game, and what every game keeps. */
module SimRules {
  import opened SimGrid
  import opened SimBlock
  import opened Rng

  const PREVIEW: nat := 3
  const MAX_LEVEL: int := 20

  datatype Game = Game(
    board: Board,
    bag: seq<nat>,         // ids not dealt yet
    rng: nat, holes: nat,  // the piece stream and the garbage-hole stream
    current: Block, next: seq<Block>,
    gravity: int, interval: int, soft: int,
    rotatedLast: bool,
    attack: int,           // garbage lines sent since the start
    pending: int,          // garbage lines waiting for the next lock
    received: int,         // garbage lines taken in by the last lock
    taken: int,            // history: garbage lines taken in since the start
    over: bool,
    score: int, lines: int, level: int,
    dealt: seq<nat>)       // history: ids of all pieces dealt since the start

  // ---------------------------------------------------------------- fitting and dropping

  predicate TilesFit(board: Board, ps: seq<Position>) {
    forall i :: 0 <= i < |ps| ==> CellEmpty(board, ps[i].row, ps[i].col)
  }

  predicate Fits(board: Board, b: Block) {
    TilesFit(board, b.Tiles())
  }

  predicate Inside(b: Block) {
    forall i :: 0 <= i < |b.Tiles()| ==> !CellOutside(b.Tiles()[i].row, b.Tiles()[i].col)
  }

  lemma FitsIsInside(board: Board, b: Block)
    requires Shaped(board) && Fits(board, b)
    ensures Inside(b) && b.row < ROWS
  {
    TilesAreFour(b);
    assert CellEmpty(board, b.Tiles()[0].row, b.Tiles()[0].col);
  }

  /** Straight down from a fitting position to the last one before the first that is blocked. */
  function Landing(board: Board, b: Block): Block
    decreases ROWS - b.row
  {
    if b.row < ROWS && Fits(board, b.Moved(1, 0)) then Landing(board, b.Moved(1, 0)) else b
  }

  /** Nothing is passed through and nothing free is left below. */
  lemma {:induction false} LandingIsLast(board: Board, b: Block)
    requires Shaped(board) && Fits(board, b)
    ensures var l := Landing(board, b);
            b.row <= l.row && l == b.(row := l.row) && Fits(board, l) && !Fits(board, l.Moved(1, 0)) &&
            forall r :: b.row <= r <= l.row ==> Fits(board, b.(row := r))
    decreases ROWS - b.row
  {
    FitsIsInside(board, b);
    var down := b.Moved(1, 0);
    if Fits(board, down) {
      LandingIsLast(board, down);
      var l := Landing(board, b);
      forall r | b.row <= r <= l.row
        ensures Fits(board, b.(row := r))
      {
        if r > b.row { assert b.(row := r) == down.(row := r); }
      }
    }
  }

  // ---------------------------------------------------------------- locking

  function Stamp(board: Board, ps: seq<Position>, id: nat): Board
    decreases |ps|
  {
    if |ps| == 0 then board else Stamp(Put(board, ps[0].row, ps[0].col, id), ps[1..], id)
  }

  function Corner(board: Board, r: int, c: int): nat {
    if CellOutside(r, c) || !CellEmpty(board, r, c) then 1 else 0
  }

  /** The T piece's last successful move was a rotation, and three corners around its centre
      are blocked. */
  predicate IsTSpin(g: Game) {
    var r, c := g.current.row + 1, g.current.col + 1;
    g.current.id == 6 && g.rotatedLast &&
    Corner(g.board, r - 1, c - 1) + Corner(g.board, r - 1, c + 1) +
    Corner(g.board, r + 1, c - 1) + Corner(g.board, r + 1, c + 1) >= 3
  }

  function AttackLines(n: nat, tspin: bool): nat {
    if tspin then (if n == 1 then 2 else if n == 2 then 4 else if n == 3 then 6 else 0)
    else (if n == 2 then 1 else if n == 3 then 2 else if n == 4 then 4 else 0)
  }

  function Points(n: nat, tspin: bool): nat {
    if tspin then (if n == 0 then 400 else if n == 1 then 800 else if n == 2 then 1200 else if n == 3 then 1600 else 0)
    else (if n == 1 then 100 else if n == 2 then 300 else if n == 3 then 600 else if n == 4 then 1000 else 0)
  }

  function LevelFor(lines: int): int {
    if lines / 10 + 1 > MAX_LEVEL then MAX_LEVEL else lines / 10 + 1
  }

  function IntervalFor(level: int): int { 30 - (level - 1) * 27 / 19 }

  /** UpdateScore: points at the current level, then the level and the pace for the new line
      count. */
  function Scored(g: Game, n: nat, tspin: bool): Game {
    var h := g.(score := g.score + Points(n, tspin) * g.level, lines := g.lines + n);
    var reached := h.lines / 10 + 1;
    if reached > g.level then
      var l := if reached > MAX_LEVEL then MAX_LEVEL else reached;
      h.(level := l, interval := if IntervalFor(l) < 3 then 3 else IntervalFor(l))
    else h
  }

  /** The piece's cells are written. */
  function Stamped(g: Game): Game
  {
    g.(board := Stamp(g.board, g.current.Tiles(), g.current.id))
  }

  function Refilled(bag: seq<nat>): seq<nat> { if |bag| == 0 then AllBlocks() else bag }

  function Without(bag: seq<nat>, i: nat): seq<nat>
    requires i < |bag|
  {
    bag[..i] + bag[i + 1..]
  }

  function Pick(bag: seq<nat>, rng: nat): nat { Draw(rng, |Refilled(bag)|) }

  /** One piece is dealt from the bag, which is refilled when it is empty. */
  function Dealt(g: Game): Game {
    var bag, i := Refilled(g.bag), Pick(g.bag, g.rng);
    g.(bag := Without(bag, i), rng := Step(g.rng), next := g.next + [Spawn(bag[i])], dealt := g.dealt + [bag[i]])
  }

  /** The next piece enters; the game is over if it does not fit. */
  function Entered(g: Game): Game {
    if |g.next| == 0 then g
    else g.(current := g.next[0], over := g.over || !Fits(g.board, g.next[0]), next := g.next[1..])
  }

  /** Full rows go; points and attack are credited. */
  function Credited(g: Game, tspin: bool): Game {
    var n := Fulls(g.board);
    var h := g.(board := Cleared(g.board), rotatedLast := false);
    if n > 0 || tspin then
      var k := Scored(h, n, tspin);
      k.(attack := k.attack + AttackLines(n, tspin))
    else h
  }

  function AtMostRows(n: int): nat { if n <= 0 then 0 else if n > ROWS then ROWS else n }

  /** Waiting garbage comes in from below, unless the game has just ended. */
  function Attacked(g: Game): Game {
    if g.pending > 0 && !g.over && Shaped(g.board) then
      var board := Raised(g.board, AtMostRows(g.pending), Draw(g.holes, COLS));
      g.(board := board, holes := Step(g.holes), received := g.pending, taken := g.taken + g.pending,
         pending := 0, over := !Fits(board, g.current))
    else g.(received := 0)
  }

  /** LockBlock */
  function Locked(g: Game): Game
  {
    Attacked(Credited(Dealt(Entered(Stamped(g))), IsTSpin(g)))
  }

  /** AddPendingGarbage */
  function Threatened(g: Game, rows: int): Game {
    if rows > 0 then g.(pending := g.pending + rows) else g
  }

  // ---------------------------------------------------------------- frame-level play

  const INPUT_LEFT: nat := 1
  const INPUT_RIGHT: nat := 2
  const INPUT_DOWN: nat := 4
  const INPUT_ROTATE: nat := 8
  const INPUT_DROP: nat := 16
  const SOFT_DROP_TICKS: int := 3

  predicate HasInput(mask: nat, bit: nat)
    requires bit > 0
  {
    mask / bit % 2 == 1
  }

  function Shifted(g: Game, cols: int): Game {
    if !g.over && Fits(g.board, g.current.Moved(0, cols))
    then g.(current := g.current.Moved(0, cols), rotatedLast := false) else g
  }

  function Turned(g: Game): Game {
    if !g.over && Fits(g.board, g.current.Rotated())
    then g.(current := g.current.Rotated(), rotatedLast := true) else g
  }

  function Lowered(g: Game): Game
  {
    if g.over then g
    else if Fits(g.board, g.current.Moved(1, 0)) then g.(current := g.current.Moved(1, 0), rotatedLast := false)
    else Locked(g)
  }

  /** The row above the first one, from here down, where the piece does not fit. */
  function DropTarget(board: Board, b: Block): Block {
    if Fits(board, b) then Landing(board, b) else b.Moved(-1, 0)
  }

  function Dropped(g: Game): Game
  {
    if g.over then g else Locked(g.(current := DropTarget(g.board, g.current)))
  }

  function SoftDropped(g: Game, held: bool): Game
  {
    if !held then g.(soft := 0)
    else if g.soft <= 0 then Lowered(g).(soft := SOFT_DROP_TICKS)
    else g.(soft := g.soft - 1)
  }

  /** SubmitInput up to the hard drop: left, right, soft drop, rotation, in this order. */
  function Steered(g: Game, mask: nat): Game {
    TurnedIf(SoftDropped(Nudged(g, mask), HasInput(mask, INPUT_DOWN)), HasInput(mask, INPUT_ROTATE))
  }

  function Nudged(g: Game, mask: nat): Game {
    ShiftedIf(ShiftedIf(g, HasInput(mask, INPUT_LEFT), -1), HasInput(mask, INPUT_RIGHT), 1)
  }

  function ShiftedIf(g: Game, held: bool, cols: int): Game { if held then Shifted(g, cols) else g }

  function TurnedIf(g: Game, held: bool): Game { if held then Turned(g) else g }

  /** SubmitInput */
  function Submitted(g: Game, mask: nat): Game {
    if g.over then g
    else if HasInput(mask, INPUT_DROP) then Dropped(Steered(g, mask))
    else Steered(g, mask)
  }

  /** Tick: gravity. */
  function Ticked(g: Game): Game
  {
    if g.over then g
    else if g.gravity + 1 >= g.interval then Lowered(g.(gravity := 0))
    else g.(gravity := g.gravity + 1)
  }

  // ---------------------------------------------------------------- invariants

  /** Locked pieces (1-7), garbage (9) and empty cells, and no full row. */
  ghost predicate Colored(b: Board) {
    forall r, c :: 0 <= r < |b| && 0 <= c < |b[r]| ==> 0 <= b[r][c] <= 7 || b[r][c] == 9
  }

  ghost predicate BoardOk(b: Board) {
    Shaped(b) && Colored(b) && NoFullRow(b)
  }

  /** The bag holds some of the seven pieces, none twice. */
  ghost predicate BagOk(bag: seq<nat>) {
    (forall i :: 0 <= i < |bag| ==> 1 <= bag[i] <= 7) &&
    (forall i, j :: 0 <= i < j < |bag| ==> bag[i] != bag[j])
  }

  ghost predicate PiecesOk(g: Game) {
    BagOk(g.bag) && |g.next| == PREVIEW && 1 <= g.current.id <= 7 &&
    forall i :: 0 <= i < |g.next| ==> NewPiece(g.next[i])
  }

  predicate NewPiece(b: Block) { 1 <= b.id <= 7 && b == Spawn(b.id) }

  /** Level and pace are functions of the number of rows cleared. */
  ghost predicate Paced(g: Game) {
    g.lines >= 0 && g.level == LevelFor(g.lines) && g.interval == IntervalFor(g.level)
  }

  /** In order but for the place of the current piece. */
  ghost predicate Lockable(g: Game) {
    BoardOk(g.board) && PiecesOk(g) && Paced(g) && g.attack >= 0 && g.pending >= 0
  }

  ghost predicate GameOk(g: Game) {
    Lockable(g) && g.current.Valid() && Inside(g.current)
  }

  // ---------------------------------------------------------------- stamping

  lemma {:induction false} StampShaped(board: Board, ps: seq<Position>, id: nat)
    requires Shaped(board)
    ensures Shaped(Stamp(board, ps, id))
    decreases |ps|
  {
    if |ps| > 0 {
      StampShaped(Put(board, ps[0].row, ps[0].col, id), ps[1..], id);
    }
  }

  lemma {:induction false} StampColored(board: Board, ps: seq<Position>, id: nat)
    requires Shaped(board) && Colored(board) && 1 <= id <= 7
    ensures Colored(Stamp(board, ps, id))
    decreases |ps|
  {
    if |ps| > 0 {
      StampColored(Put(board, ps[0].row, ps[0].col, id), ps[1..], id);
    }
  }

  /** Each written cell makes at most one row full. */
  lemma {:induction false} StampFulls(board: Board, ps: seq<Position>, id: nat)
    requires Shaped(board)
    ensures Fulls(Stamp(board, ps, id)) <= Fulls(board) + |ps|
    decreases |ps|
  {
    if |ps| > 0 {
      var p := ps[0];
      var put := Put(board, p.row, p.col, id);
      if !CellOutside(p.row, p.col) {
        FullsUpdate(board, p.row, board[p.row][p.col := id]);
      }
      StampFulls(put, ps[1..], id);
    }
  }

  ghost predicate Covers(ps: seq<Position>, r: int, c: int) {
    exists i :: 0 <= i < |ps| && ps[i] == Position(r, c)
  }

  /** Stamping writes exactly the given cells. */
  lemma {:induction false} StampCells(board: Board, ps: seq<Position>, id: nat, r: nat, c: nat)
    requires Shaped(board) && r < ROWS && c < COLS
    ensures Shaped(Stamp(board, ps, id))
    ensures Stamp(board, ps, id)[r][c] == if Covers(ps, r, c) then id else board[r][c]
    decreases |ps|
  {
    if |ps| > 0 {
      var put, rest := Put(board, ps[0].row, ps[0].col, id), ps[1..];
      StampCells(put, rest, id, r, c);
      CoversTail(ps, r, c);
    }
  }

  lemma CoversTail(ps: seq<Position>, r: int, c: int)
    requires |ps| > 0
    ensures Covers(ps, r, c) <==> ps[0] == Position(r, c) || Covers(ps[1..], r, c)
  {
    if i :| 0 <= i < |ps| && ps[i] == Position(r, c) {
      if i > 0 { assert ps[1..][i - 1] == Position(r, c); }
    }
    if j :| 0 <= j < |ps[1..]| && ps[1..][j] == Position(r, c) {
      assert ps[j + 1] == Position(r, c);
    }
  }

  /** A piece that fits locks into four empty cells of the board and touches no other. */
  lemma LockWritesFourEmptyCells(g: Game, r: nat, c: nat)
    requires Shaped(g.board) && Fits(g.board, g.current) && r < ROWS && c < COLS
    ensures |g.current.Tiles()| == 4
    ensures forall i :: 0 <= i < 4 ==> var p := g.current.Tiles()[i];
              !CellOutside(p.row, p.col) && CellEmpty(g.board, p.row, p.col)
    ensures forall i, j :: 0 <= i < j < 4 ==> g.current.Tiles()[i] != g.current.Tiles()[j]
    ensures Shaped(Stamped(g).board)
    ensures Stamped(g).board[r][c] == if Covers(g.current.Tiles(), r, c) then g.current.id else g.board[r][c]
  {
    TilesAreFour(g.current);
    StampCells(g.board, g.current.Tiles(), g.current.id, r, c);
  }

  // ---------------------------------------------------------------- every lock keeps the game

  lemma StampedOk(g: Game)
    requires BoardOk(g.board) && 1 <= g.current.id <= 7
    ensures Shaped(Stamped(g).board) && Colored(Stamped(g).board) && Fulls(Stamped(g).board) <= 4
  {
    TilesAreFour(g.current);
    StampShaped(g.board, g.current.Tiles(), g.current.id);
    StampColored(g.board, g.current.Tiles(), g.current.id);
    StampFulls(g.board, g.current.Tiles(), g.current.id);
    NothingToClear(g.board);
  }

  lemma SpawnInside(id: nat)
    requires 1 <= id <= 7
    ensures Inside(Spawn(id))
  {
    ShapeIsFour(id, 0);
    OffsetAt(Shape(id, 0), 0, Spawn(id).col);
  }

  lemma DealtOk(g: Game)
    requires BagOk(g.bag) && forall i :: 0 <= i < |g.next| ==> NewPiece(g.next[i])
    ensures BagOk(Dealt(g).bag) && |Dealt(g).next| == |g.next| + 1
    ensures forall i :: 0 <= i < |Dealt(g).next| ==> NewPiece(Dealt(g).next[i])
  {
    var bag, i := Refilled(g.bag), Pick(g.bag, g.rng);
    RefilledOk(g.bag);
    BagWithout(bag, i);
  }

  lemma RefilledOk(bag: seq<nat>)
    requires BagOk(bag)
    ensures BagOk(Refilled(bag))
  {}

  lemma BagWithout(bag: seq<nat>, i: nat)
    requires BagOk(bag) && i < |bag|
    ensures BagOk(Without(bag, i))
  {
    var rest := Without(bag, i);
    assert forall j :: 0 <= j < |rest| ==> rest[j] == if j < i then bag[j] else bag[j + 1];
  }

  lemma EnteredOk(g: Game)
    requires |g.next| > 0 && forall i :: 0 <= i < |g.next| ==> NewPiece(g.next[i])
    ensures Inside(Entered(g).current) && Entered(g).current.Valid()
    ensures forall i :: 0 <= i < |Entered(g).next| ==> NewPiece(Entered(g).next[i])
  {
    assert NewPiece(g.next[0]);
    SpawnInside(g.next[0].id);
  }

  lemma ScoredPaced(g: Game, n: nat, tspin: bool)
    requires Paced(g)
    ensures Paced(Scored(g, n, tspin)) && Scored(g, n, tspin).lines == g.lines + n
  {}

  lemma CreditedOk(g: Game, tspin: bool)
    requires Shaped(g.board) && Colored(g.board) && Paced(g)
    ensures BoardOk(Credited(g, tspin).board) && Paced(Credited(g, tspin))
    ensures Credited(g, tspin).lines == g.lines + Fulls(g.board)
    ensures g.attack <= Credited(g, tspin).attack
  {
    var h := g.(board := Cleared(g.board), rotatedLast := false);
    ClearedIsClear(g.board);
    ClearedColored(g.board);
    ScoredPaced(h, Fulls(g.board), tspin);
  }

  lemma ClearedColored(b: Board)
    requires Shaped(b) && Colored(b)
    ensures Colored(Cleared(b))
  {
    BlanksAre(Fulls(b));
    KeptRows(b);
    forall r, c | 0 <= r < |Cleared(b)| && 0 <= c < |Cleared(b)[r]|
      ensures 0 <= Cleared(b)[r][c] <= 7 || Cleared(b)[r][c] == 9
    {
      if r >= Fulls(b) { assert Kept(b)[r - Fulls(b)] in b; }
    }
  }

  lemma RaisedOk(b: Board, n: nat, hole: nat)
    requires BoardOk(b) && n <= ROWS && hole < COLS
    ensures BoardOk(Raised(b, n, hole))
  {
    RaisedIsShaped(b, n, hole);
    assert GarbageRow(hole)[hole] == 0;
    assert forall c :: 0 <= c < COLS ==> GarbageRow(hole)[c] == if c == hole then 0 else 9;
  }

  lemma AttackedOk(g: Game)
    requires GameOk(g)
    ensures GameOk(Attacked(g))
  {
    if g.pending > 0 && !g.over {
      RaisedOk(g.board, AtMostRows(g.pending), Draw(g.holes, COLS));
    }
  }

  lemma LockedParts(g: Game)
    requires Lockable(g)
    ensures var h := Dealt(Entered(Stamped(g)));
            PiecesOk(h) && h.current.Valid() && Inside(h.current) && Paced(h) && h.board == Stamped(g).board &&
            h.attack == g.attack && h.pending == g.pending && h.lines == g.lines
  {
    EnteredOk(Stamped(g));
    DealtOk(Entered(Stamped(g)));
  }

  /** Every lock keeps the game in order, wherever the piece is, and clears at most four rows. */
  lemma LockedOk(g: Game)
    requires Lockable(g)
    ensures GameOk(Locked(g))
    ensures 0 <= Locked(g).lines - g.lines <= 4
    ensures Locked(g).lines - g.lines == Fulls(Stamped(g).board)
  {
    StampedOk(g);
    LockedParts(g);
    SettledOk(Dealt(Entered(Stamped(g))), IsTSpin(g));
  }

  /** The second half of a lock: rows go, garbage comes. */
  lemma SettledOk(g: Game, tspin: bool)
    requires Shaped(g.board) && Colored(g.board) && PiecesOk(g) && g.current.Valid() && Inside(g.current) && Paced(g)
    requires g.attack >= 0 && g.pending >= 0
    ensures GameOk(Attacked(Credited(g, tspin)))
    ensures Attacked(Credited(g, tspin)).lines == g.lines + Fulls(g.board)
  {
    CreditedOk(g, tspin);
    AttackedOk(Credited(g, tspin));
  }

  /** Garbage is neither lost nor made up, and attack never shrinks: whatever happens to a
      game on its own turn, what waits plus what was taken in stays the same. */
  ghost predicate Conserves(g: Game, h: Game) {
    h.pending + h.taken == g.pending + g.taken && h.attack >= g.attack
  }

  lemma LockConserves(g: Game)
    ensures Conserves(g, Locked(g))
    ensures Locked(g).taken - g.taken == Locked(g).received
  {
    var h := Dealt(Entered(Stamped(g)));
    assert Conserves(g, h) && h.taken == g.taken;
    CreditConserves(h, IsTSpin(g));
  }

  lemma CreditConserves(g: Game, tspin: bool)
    ensures Conserves(g, Credited(g, tspin)) && Credited(g, tspin).taken == g.taken
  {}

  lemma DropConserves(g: Game)
    ensures Conserves(g, Dropped(g)) && Conserves(g, Lowered(g))
  {
    LockConserves(g);
    LockConserves(g.(current := DropTarget(g.board, g.current)));
  }

  lemma SoftConserves(g: Game, held: bool)
    ensures Conserves(g, SoftDropped(g, held))
  {
    DropConserves(g);
  }

  lemma SteerConserves(g: Game, mask: nat)
    ensures Conserves(g, Steered(g, mask))
  {
    SoftConserves(Nudged(g, mask), HasInput(mask, INPUT_DOWN));
  }

  lemma SubmitConserves(g: Game, mask: nat)
    ensures Conserves(g, Submitted(g, mask))
  {
    SteerConserves(g, mask);
    DropConserves(Steered(g, mask));
  }

  lemma TickConserves(g: Game)
    ensures Conserves(g, Ticked(g))
  {
    DropConserves(g.(gravity := 0));
  }

  // ---------------------------------------------------------------- frame-level moves keep the game

  /** Every frame-level move keeps the game in order, wherever it starts. */
  lemma MovesOk(g: Game, cols: int)
    requires GameOk(g)
    ensures GameOk(Shifted(g, cols)) && GameOk(Turned(g)) && GameOk(Lowered(g)) && GameOk(Dropped(g))
  {
    StepOk(g, g.current.Moved(0, cols));
    StepOk(g, g.current.Rotated());
    assert GameOk(Shifted(g, cols)) && GameOk(Turned(g));
    LoweredOk(g);
    DroppedOk(g);
  }

  lemma LoweredOk(g: Game)
    requires GameOk(g)
    ensures GameOk(Lowered(g))
  {
    StepOk(g, g.current.Moved(1, 0));
    LockedOk(g);
  }

  lemma StepOk(g: Game, b: Block)
    requires GameOk(g) && b.Valid() && b.id == g.current.id
    ensures Fits(g.board, b) ==> GameOk(g.(current := b, rotatedLast := false))
    ensures Fits(g.board, b) ==> GameOk(g.(current := b, rotatedLast := true))
  {
    if Fits(g.board, b) { FitsIsInside(g.board, b); }
  }

  lemma DroppedOk(g: Game)
    requires GameOk(g)
    ensures GameOk(Dropped(g))
  {
    LandingIsBelow(g.board, g.current);
    LockedOk(g.(current := DropTarget(g.board, g.current)));
  }

  lemma {:induction false} LandingIsBelow(board: Board, b: Block)
    ensures Landing(board, b) == b.(row := Landing(board, b).row)
    decreases ROWS - b.row
  {
    if b.row < ROWS && Fits(board, b.Moved(1, 0)) {
      LandingIsBelow(board, b.Moved(1, 0));
    }
  }

  lemma SoftOk(g: Game, held: bool)
    requires GameOk(g)
    ensures GameOk(SoftDropped(g, held))
  {
    LoweredOk(g);
  }

  lemma SteeredOk(g: Game, mask: nat)
    requires GameOk(g)
    ensures GameOk(Steered(g, mask))
  {
    NudgedOk(g, mask);
    SoftOk(Nudged(g, mask), HasInput(mask, INPUT_DOWN));
    TurnedIfOk(SoftDropped(Nudged(g, mask), HasInput(mask, INPUT_DOWN)), HasInput(mask, INPUT_ROTATE));
  }

  lemma NudgedOk(g: Game, mask: nat)
    requires GameOk(g)
    ensures GameOk(Nudged(g, mask))
  {
    ShiftedIfOk(g, HasInput(mask, INPUT_LEFT), -1);
    ShiftedIfOk(ShiftedIf(g, HasInput(mask, INPUT_LEFT), -1), HasInput(mask, INPUT_RIGHT), 1);
  }

  lemma ShiftedIfOk(g: Game, held: bool, cols: int)
    requires GameOk(g)
    ensures GameOk(ShiftedIf(g, held, cols))
  {
    MovesOk(g, cols);
  }

  lemma TurnedIfOk(g: Game, held: bool)
    requires GameOk(g)
    ensures GameOk(TurnedIf(g, held))
  {
    MovesOk(g, 0);
  }

  /** A whole input and a tick of gravity keep the game in order. */
  lemma SubmittedOk(g: Game, mask: nat)
    requires GameOk(g)
    ensures GameOk(Submitted(g, mask))
  {
    SteeredOk(g, mask);
    MovesOk(Steered(g, mask), 0);
  }

  lemma TickedOk(g: Game)
    requires GameOk(g)
    ensures GameOk(Ticked(g))
  {
    LoweredOk(g.(gravity := 0));
  }
}
