/** What a lock does to a game, cell by cell and count by count (src/sim_game.cpp: LockBlock,
    InsertGarbage, UpdateScore): the piece's cells are written, full rows go, waiting garbage
    comes in, the next piece enters, and points, lines and attack are credited. */
module Locking {
  import opened SimGrid
  import opened SimBlock
  import opened Rng
  import opened SimRules
  import opened Steering

  // ---------------------------------------------------------------- the table of points

  /** A T-spin pays 400 and 400 more for each of up to three rows; otherwise the n-th row of a
      lock pays n hundred. */
  lemma PointsTable(n: nat)
    requires n <= 4
    ensures n <= 3 ==> Points(n, true) == 400 * (n + 1)
    ensures Points(n, false) == 50 * n * (n + 1)
    ensures n > 0 && n <= 3 ==> Points(n - 1, true) < Points(n, true) && Points(n, false) < Points(n, true)
  {}

  /** One row alone sends nothing, more rows send one less than they are, four send four; with a
      T-spin every row sends two. */
  lemma AttackTable(n: nat)
    requires n <= 4
    ensures n <= 3 ==> AttackLines(n, true) == 2 * n
    ensures AttackLines(n, false) == if n == 4 then 4 else if n == 0 then 0 else n - 1
    ensures n > 0 ==> AttackLines(n - 1, false) <= AttackLines(n, false)
  {}

  /** The cells diagonally next to the centre of a piece that turns in a square of three. */
  function Diagonals(b: Block): set<Position> {
    {Position(b.row, b.col), Position(b.row, b.col + 2), Position(b.row + 2, b.col), Position(b.row + 2, b.col + 2)}
  }

  ghost predicate Blocked(board: Board, p: Position) { CellOutside(p.row, p.col) || !CellEmpty(board, p.row, p.col) }

  ghost function BlockedOf(board: Board, ps: set<Position>): set<Position> { set p | p in ps && Blocked(board, p) }

  lemma OneMore(board: Board, ps: set<Position>, p: Position)
    requires p !in ps
    ensures |BlockedOf(board, ps + {p})| == |BlockedOf(board, ps)| + Corner(board, p.row, p.col)
  {
    var rest := BlockedOf(board, ps);
    assert BlockedOf(board, ps + {p}) == if Blocked(board, p) then rest + {p} else rest;
  }

  /** A T-spin is a lock of the T piece, turned last, with at least three diagonal neighbours of
      its centre blocked; the centre is the cell the other three adjoin. */
  lemma TSpinMeans(g: Game)
    ensures IsTSpin(g) <==>
              g.current.id == 6 && g.rotatedLast && |BlockedOf(g.board, Diagonals(g.current))| >= 3
  {
    var b := g.current;
    var p, q, r, s := Position(b.row, b.col), Position(b.row, b.col + 2), Position(b.row + 2, b.col),
                      Position(b.row + 2, b.col + 2);
    assert BlockedOf(g.board, {}) == {};
    OneMore(g.board, {}, p);
    OneMore(g.board, {} + {p}, q);
    OneMore(g.board, {} + {p} + {q}, r);
    OneMore(g.board, {} + {p} + {q} + {r}, s);
    assert {} + {p} + {q} + {r} + {s} == Diagonals(b);
  }

  /** The other cells of a T all adjoin its centre. */
  lemma CentreOfT(b: Block, p: Position)
    requires b.id == 6 && b.Valid()
    ensures Position(b.row + 1, b.col + 1) in Cells(b)
    ensures p in Cells(b) ==> Distance(p, Position(b.row + 1, b.col + 1)) <= 1
  {
    CellsAre(b, Position(b.row + 1, b.col + 1));
    CellsAre(b, p);
  }

  function Abs(x: int): nat { if x < 0 then -x else x }

  function Distance(p: Position, q: Position): nat { Abs(p.row - q.row) + Abs(p.col - q.col) }

  // ---------------------------------------------------------------- the board

  /** b is the game's board with the cells of the current piece written. */
  ghost predicate Writes(g: Game, b: Board) {
    Shaped(b) && Shaped(g.board) &&
    forall r: nat, c: nat :: r < ROWS && c < COLS ==>
      b[r][c] == if Position(r, c) in Cells(g.current) then g.current.id else g.board[r][c]
  }

  lemma StampedWrites(g: Game)
    requires Shaped(g.board)
    ensures Writes(g, Stamped(g).board)
  {
    var ps := g.current.Tiles();
    StampShaped(g.board, ps, g.current.id);
    forall r: nat, c: nat | r < ROWS && c < COLS
      ensures Stamped(g).board[r][c] == if Position(r, c) in Cells(g.current) then g.current.id else g.board[r][c]
    {
      StampCells(g.board, ps, g.current.id, r, c);
    }
  }

  /** The board pushed up by n rows that are filled but for one column. */
  ghost predicate Rises(b: Board, b': Board, n: nat) {
    n <= ROWS && Shaped(b) && Shaped(b') && (forall r: nat :: r < ROWS - n ==> b'[r] == b[r + n]) &&
    exists hole: nat :: hole < COLS && Walled(b', n, hole)
  }

  ghost predicate Walled(b: Board, n: nat, hole: nat)
    requires Shaped(b) && n <= ROWS
  {
    forall r, c :: ROWS - n <= r < ROWS && 0 <= c < COLS ==> b[r][c] == if c == hole then 0 else 9
  }

  lemma RaisedRises(b: Board, n: nat, hole: nat)
    requires Shaped(b) && n <= ROWS && hole < COLS
    ensures Rises(b, Raised(b, n, hole), n)
  {
    RaisedIsShaped(b, n, hole);
    assert Walled(Raised(b, n, hole), n, hole);
  }

  // ---------------------------------------------------------------- the whole lock

  /** The accounts of a lock that fills n rows. */
  ghost predicate Credits(g: Game, h: Game, n: nat) {
    h.lines == g.lines + n && h.score == g.score + Points(n, IsTSpin(g)) * g.level &&
    h.attack == g.attack + AttackLines(n, IsTSpin(g)) && !h.rotatedLast
  }

  /** The piece that enters is the first of the preview; a new one joins it from the bag. */
  ghost predicate Deals(g: Game, h: Game) {
    |g.next| > 0 && |h.next| == |g.next| && h.current == g.next[0] && h.next[..|h.next| - 1] == g.next[1..] &&
    exists id :: NewPiece(Spawn(id)) && h.next[|h.next| - 1] == Spawn(id) && h.dealt == g.dealt + [id]
  }

  /** Garbage that waits comes in, at most a board of it, unless the game ends with this lock;
      the game ends if the entering piece does not fit the board as written, or the board
      pushed up. */
  ghost predicate Ends(g: Game, h: Game, written: Board, left: Board) {
    var late := g.over || !Free(written, Cells(h.current));
    if g.pending > 0 && !late then
      Rises(left, h.board, if g.pending < ROWS then g.pending else ROWS) && h.pending == 0 && h.received == g.pending &&
      (h.over <==> !Free(h.board, Cells(h.current)))
    else h.board == left && h.pending == g.pending && h.received == 0 && (h.over <==> late)
  }

  ghost predicate Locks(g: Game, h: Game) {
    exists written, left ::
      Writes(g, written) && Collapses(written, left) && Credits(g, h, |FullFrom(written, 0)|) && Deals(g, h) &&
      Ends(g, h, written, left)
  }

  lemma LockDeals(g: Game)
    requires Lockable(g)
    ensures Deals(g, Dealt(Entered(Stamped(g))))
  {
    var bag, i := Refilled(g.bag), Pick(g.bag, g.rng);
    RefilledOk(g.bag);
    assert NewPiece(Spawn(bag[i]));
  }

  lemma LockStarts(g: Game)
    requires |g.next| > 0
    ensures var d := Dealt(Entered(Stamped(g)));
            d.lines == g.lines && d.score == g.score && d.level == g.level && d.attack == g.attack &&
            d.pending == g.pending && d.board == Stamped(g).board && d.current == g.next[0] &&
            (d.over <==> g.over || !Fits(Stamped(g).board, g.next[0]))
  {}

  /** What crediting leaves alone, and what taking garbage in leaves alone. */
  ghost predicate SamePieces(g: Game, h: Game) {
    h.current == g.current && h.next == g.next && h.dealt == g.dealt
  }

  ghost predicate SameAccounts(g: Game, h: Game) {
    h.lines == g.lines && h.score == g.score && h.attack == g.attack && h.rotatedLast == g.rotatedLast
  }

  lemma LockCredits(g: Game, n: nat, tspin: bool)
    requires n == Fulls(g.board)
    ensures var k := Credited(g, tspin);
            k.lines == g.lines + n && k.score == g.score + Points(n, tspin) * g.level &&
            k.attack == g.attack + AttackLines(n, tspin) && !k.rotatedLast && k.board == Cleared(g.board) &&
            SamePieces(g, k) && k.pending == g.pending && k.over == g.over
  {
    var h := g.(board := Cleared(g.board), rotatedLast := false);
    ScoredScore(h, n, tspin);
    if n == 0 && !tspin { assert Points(n, tspin) == 0 && AttackLines(n, tspin) == 0; }
  }

  lemma ScoredScore(g: Game, n: nat, tspin: bool)
    ensures var k := Scored(g, n, tspin);
            k.score == g.score + Points(n, tspin) * g.level && k.lines == g.lines + n && k.attack == g.attack &&
            k.rotatedLast == g.rotatedLast && k.board == g.board && SamePieces(g, k) && k.pending == g.pending &&
            k.over == g.over
  {}

  lemma LockEnds(g: Game, written: Board)
    requires Shaped(g.board) && Shaped(written) && (g.over <==> g.over || !Fits(written, g.current))
    ensures SamePieces(g, Attacked(g)) && SameAccounts(g, Attacked(g))
    ensures var h := Attacked(g);
            if g.pending > 0 && !g.over then
              Rises(g.board, h.board, if g.pending < ROWS then g.pending else ROWS) && h.pending == 0 &&
              h.received == g.pending && (h.over <==> !Free(h.board, Cells(h.current)))
            else h.board == g.board && h.pending == g.pending && h.received == 0 && h.over == g.over
  {
    if g.pending > 0 && !g.over {
      var n, hole := AtMostRows(g.pending), Draw(g.holes, COLS);
      RaisedRises(g.board, n, hole);
      RaisedIsShaped(g.board, n, hole);
      FitsIsFree(Raised(g.board, n, hole), g.current);
    }
  }

  /** Every lock of a game in order is one of these. */
  lemma LockedLocks(g: Game)
    requires Lockable(g)
    ensures Locks(g, Locked(g))
  {
    var written := Stamped(g).board;
    var d := Dealt(Entered(Stamped(g)));
    var k := Credited(d, IsTSpin(g));
    StampedWrites(g);
    ClearedCollapses(written);
    ClearedIsClear(written);
    FullsCount(written, 0);
    assert written[0..] == written;
    LockDeals(g);
    LockStarts(g);
    LockCredits(d, Fulls(written), IsTSpin(g));
    FitsIsFree(written, d.current);
    LockEnds(k, written);
    LockIs(g, d, k, Attacked(k), written, Cleared(written));
  }

  lemma LockIs(g: Game, d: Game, k: Game, h: Game, written: Board, left: Board)
    requires Writes(g, written) && Collapses(written, left) && Deals(g, d) && SamePieces(d, k) && SamePieces(k, h)
    requires Credits(g, k, |FullFrom(written, 0)|) && SameAccounts(k, h)
    requires k.over <==> g.over || !Free(written, Cells(k.current))
    requires k.board == left && k.pending == g.pending
    requires if k.pending > 0 && !k.over then
               Rises(k.board, h.board, if k.pending < ROWS then k.pending else ROWS) && h.pending == 0 &&
               h.received == k.pending && (h.over <==> !Free(h.board, Cells(h.current)))
             else h.board == k.board && h.pending == k.pending && h.received == 0 && h.over == k.over
    ensures Locks(g, h)
  {
    assert Credits(g, h, |FullFrom(written, 0)|) && Deals(g, h) && Ends(g, h, written, left);
  }
}
