/** Where the pieces of src/sim_game.cpp are written.  A lock writes the current piece's four cells
    unchecked, and a piece can be in play that does not fit: whether it fits is tested before
    the full rows are cleared.  Here is exactly when a lock writes four empty cells of the
    board. */
module Misfit {
  import opened SimGrid
  import opened SimBlock
  import opened SimRules

  // ---------------------------------------------------------------- where a piece is written

  /** On the board, empty and different from each other. */
  ghost predicate Clean(board: Board, ps: seq<Position>) {
    (forall i :: 0 <= i < |ps| ==> !CellOutside(ps[i].row, ps[i].col) && CellEmpty(board, ps[i].row, ps[i].col)) &&
    (forall i, j :: 0 <= i < j < |ps| ==> ps[i] != ps[j])
  }

  /** A lock writes only cells of the board, empty ones, exactly if the piece fits. */
  lemma CleanIsFits(board: Board, b: Block)
    requires Shaped(board)
    ensures Clean(board, b.Tiles()) <==> Fits(board, b)
  {
    TilesAreFour(b);
    if Fits(board, b) { FitsIsInside(board, b); }
  }

  /** A hard drop writes only empty cells of the board exactly if the piece fits where it is or
      one row higher; otherwise it overwrites cells or writes outside the array. */
  lemma DropIsClean(g: Game)
    requires Shaped(g.board) && !g.over
    ensures var target := DropTarget(g.board, g.current);
            Dropped(g) == Locked(g.(current := target)) &&
            (Clean(g.board, target.Tiles()) <==> Fits(g.board, g.current) || Fits(g.board, g.current.Moved(-1, 0)))
  {
    CleanIsFits(g.board, DropTarget(g.board, g.current));
    if Fits(g.board, g.current) { LandingIsLast(g.board, g.current); }
  }

  /** The hard drop of a whole input starts where the steering has left the piece. */
  lemma InputDropIsClean(g: Game, mask: nat)
    requires GameOk(g) && !g.over && HasInput(mask, INPUT_DROP) && !Steered(g, mask).over
    ensures var s := Steered(g, mask);
            var target := DropTarget(s.board, s.current);
            Submitted(g, mask) == Locked(s.(current := target)) &&
            (Clean(s.board, target.Tiles()) <==> Fits(s.board, s.current) || Fits(s.board, s.current.Moved(-1, 0)))
  {
    SteeredOk(g, mask);
    DropIsClean(Steered(g, mask));
  }

  /** Gravity and the soft drop lock a blocked piece where it is: they write only empty cells
      of the board exactly if it fits there. */
  lemma LowerIsClean(g: Game)
    requires Shaped(g.board) && !g.over && !Fits(g.board, g.current.Moved(1, 0))
    ensures Lowered(g) == Locked(g)
    ensures Clean(g.board, g.current.Tiles()) <==> Fits(g.board, g.current)
  {
    CleanIsFits(g.board, g.current);
  }

  // ---------------------------------------------------------------- where a misfit comes from

  /** The game goes on although its current piece does not fit. */
  predicate Misfit(g: Game) { !g.over && !Fits(g.board, g.current) }

  /** A lock leaves a misfit exactly if no garbage waits and the next piece fits before the full
      rows are cleared and not afterwards. */
  lemma LockLeavesMisfit(g: Game)
    requires Lockable(g) && !g.over
    ensures Misfit(Locked(g)) <==>
              g.pending == 0 && Fits(Stamped(g).board, g.next[0]) && !Fits(Cleared(Stamped(g).board), g.next[0])
    ensures Misfit(Locked(g)) ==> Fulls(Stamped(g).board) > 0
  {
    var h := Dealt(Entered(Stamped(g)));
    StampedOk(g);
    CreditedOk(h, IsTSpin(g));
    if Fulls(Stamped(g).board) == 0 { NoneFull(Stamped(g).board); }
  }

  lemma {:induction false} NoneFull(b: Board)
    requires Fulls(b) == 0
    ensures Cleared(b) == b
  {
    if |b| > 0 {
      NoneFull(b[1..]);
      assert b == [b[0]] + b[1..];
    }
  }

  /** Rows 0 and 1 are blank, row 2 lacks only column 6, and an upright L piece is about to lock
      there; a J piece is next. */
  ghost predicate Tight(g: Game) {
    Shaped(g.board) && g.board[0] == Blank() && g.board[1] == Blank() && g.board[2][6] == 0 &&
    (forall c :: 0 <= c < COLS && c != 6 ==> g.board[2][c] != 0) && !CellEmpty(g.board, 3, 6) &&
    g.current == Block(1, 3, 0, 5) && |g.next| > 0 && g.next[0] == Spawn(2) && g.pending == 0 && !g.over
  }

  /** The L piece above the hole, and the J piece at the top or one row above it. */
  lemma TightTiles(row: int)
    ensures Block(1, 3, row, 5).Tiles() == Four(row, 5, row, 6, row + 1, 6, row + 2, 6)
    ensures Block(2, 0, row, 3).Tiles() == Four(row, 3, row + 1, 3, row + 1, 4, row + 1, 5)
  {
    OffsetAt(ShapeL(3), row, 5);
    OffsetAt(ShapeJ(0), row, 3);
  }

  lemma TightStamped(g: Game)
    requires Tight(g)
    ensures Stamped(g).board ==
              g.board[0 := Blank()[5 := 1][6 := 1]][1 := Blank()[6 := 1]][2 := g.board[2][6 := 1]]
  {
    TightTiles(0);
    var ps := g.current.Tiles();
    var b0 := Put(g.board, 0, 5, 1);
    var b1 := Put(b0, 0, 6, 1);
    var b2 := Put(b1, 1, 6, 1);
    var b3 := Put(b2, 2, 6, 1);
    assert Stamp(g.board, ps, 1) == Stamp(b0, ps[1..], 1);
    assert Stamp(b0, ps[1..], 1) == Stamp(b1, ps[1..][1..], 1);
    assert Stamp(b1, ps[1..][1..], 1) == Stamp(b2, ps[1..][1..][1..], 1);
    assert Stamp(b2, ps[1..][1..][1..], 1) == Stamp(b3, ps[1..][1..][1..][1..], 1);
  }

  lemma {:induction false} OneFull(b: Board, r: nat)
    requires r < |b| && Full(b[r]) && forall i :: 0 <= i < |b| && i != r ==> !Full(b[i])
    ensures Fulls(b) == 1 && Kept(b) == b[..r] + b[r + 1..]
  {
    if r == 0 {
      assert NoFullRow(b[1..]);
      NothingToClear(b[1..]);
    } else {
      OneFull(b[1..], r - 1);
      assert b[1..][..r - 1] == b[1..r] && b[1..][r..] == b[r + 1..];
    }
  }

  lemma TightRowGone(b: Board)
    requires Shaped(b) && b[0] == Blank()[5 := 1][6 := 1] && Full(b[2])
    requires forall i :: 0 <= i < |b| && i != 2 ==> !Full(b[i])
    ensures Shaped(Cleared(b)) && Cleared(b)[1] == Blank()[5 := 1][6 := 1]
  {
    OneFull(b, 2);
    ClearedIsClear(b);
    BlanksAre(1);
    assert Cleared(b)[1] == b[..2][0];
  }

  lemma JFits(b: Board)
    requires Shaped(b) && b[0] == Blank()[5 := 1][6 := 1]
    ensures b[1] == Blank()[6 := 1] ==> Fits(b, Spawn(2))
  {
    TightTiles(0);
    assert b[0][3] == 0;
    if b[1] == Blank()[6 := 1] { assert b[1][3] == 0 && b[1][4] == 0 && b[1][5] == 0; }
  }

  lemma JIsBlocked(b: Board)
    requires Shaped(b) && b[1] == Blank()[5 := 1][6 := 1]
    ensures !Fits(b, Spawn(2))
  {
    TightTiles(0);
    assert b[1][5] == 1;
    assert !CellEmpty(b, Spawn(2).Tiles()[3].row, Spawn(2).Tiles()[3].col);
  }

  /** Only row 2 goes, so the cells written in row 0 come down to row 1. */
  lemma TightCleared(g: Game)
    requires Tight(g) && NoFullRow(g.board)
    ensures Fits(Stamped(g).board, g.next[0]) && !Fits(Cleared(Stamped(g).board), g.next[0])
  {
    var b := Stamped(g).board;
    TightStamped(g);
    assert b[0][0] == 0 && b[1][0] == 0;
    JFits(b);
    TightRowGone(b);
    JIsBlocked(Cleared(b));
  }

  lemma TightFits(g: Game)
    requires Tight(g)
    ensures Fits(g.board, g.current) && !Fits(g.board, g.current.Moved(1, 0))
  {
    TightTiles(0);
    TightTiles(1);
    assert Blank()[5] == 0 && Blank()[6] == 0;
    assert !CellEmpty(g.board, g.current.Moved(1, 0).Tiles()[3].row, g.current.Moved(1, 0).Tiles()[3].col);
  }

  lemma LocksToMisfit(g: Game, b: Block)
    requires Lockable(g) && !g.over && g.pending == 0 && g.next[0] == b
    requires Fits(Stamped(g).board, b) && !Fits(Cleared(Stamped(g).board), b)
    ensures GameOk(Locked(g)) && Misfit(Locked(g)) && Locked(g).current == b
  {
    LockedOk(g);
    LockLeavesMisfit(g);
  }

  /** In every such game the piece fits and is blocked below; once it has locked, the game goes
      on with a piece that does not fit, and a hard drop takes it to one row above the board. */
  lemma TightMisfits(g: Game)
    requires GameOk(g) && Tight(g)
    ensures Fits(g.board, g.current) && !Fits(g.board, g.current.Moved(1, 0))
    ensures GameOk(Locked(g)) && Misfit(Locked(g))
    ensures DropTarget(Locked(g).board, Locked(g).current) == Block(2, 0, -1, 3)
  {
    TightFits(g);
    TightCleared(g);
    LocksToMisfit(g, Spawn(2));
  }

  /** The first cell written there is above the board. */
  lemma AboveTheBoard(board: Board)
    requires Shaped(board)
    ensures |Block(2, 0, -1, 3).Tiles()| == 4 && Block(2, 0, -1, 3).Tiles()[0] == Position(-1, 3)
    ensures !Clean(board, Block(2, 0, -1, 3).Tiles())
  {
    TightTiles(-1);
    assert CellOutside(-1, 3);
  }

  /** One such game. */
  function TightBoard(): Board {
    [Blank(), Blank(), [1, 1, 1, 1, 1, 1, 0, 1, 1, 1], [0, 0, 0, 0, 0, 0, 1, 0, 0, 0]] + Blanks(16)
  }

  function TightGame(board: Board): Game {
    Game(board, [5, 6, 7], 1, 1, Block(1, 3, 0, 5), [Spawn(2), Spawn(3), Spawn(4)], 0, 30, 0, false, 0, 0, 0, 0,
         false, 0, 0, 1, [1, 2, 3, 4])
  }

  lemma TightBoardRows(r: nat)
    requires r < ROWS
    ensures |TightBoard()| == ROWS && |TightBoard()[r]| == COLS && !Full(TightBoard()[r])
    ensures forall c :: 0 <= c < COLS ==> TightBoard()[r][c] == 0 || TightBoard()[r][c] == 1
  {
    BlanksAre(16);
    if r >= 4 { assert TightBoard()[r] == Blank(); }
    assert TightBoard()[r][if r == 2 then 6 else 0] == 0;
  }

  lemma TightBoardOk()
    ensures BoardOk(TightBoard())
  {
    forall r: nat | r < ROWS
      ensures |TightBoard()| == ROWS && |TightBoard()[r]| == COLS && !Full(TightBoard()[r])
      ensures forall c :: 0 <= c < COLS ==> TightBoard()[r][c] == 0 || TightBoard()[r][c] == 1
    {
      TightBoardRows(r);
    }
    TightBoardRows(0);
  }

  lemma TightPieces(board: Board)
    requires BoardOk(board)
    ensures GameOk(TightGame(board))
  {
    TightTiles(0);
  }

  lemma TightGameIsTight()
    ensures GameOk(TightGame(TightBoard())) && Tight(TightGame(TightBoard()))
  {
    TightBoardOk();
    TightPieces(TightBoard());
  }
}
