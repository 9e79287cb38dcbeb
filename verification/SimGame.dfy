/** src/sim_game.cpp: one board's game, updated in place, and the placement-level interface. */
module SimGame {
  import opened SimGrid
  import opened SimBlock
  import opened Rng
  import opened SimRules
  import opened Steering
  import opened Locking

  datatype Placement = Placement(col: int, rot: int)

  // ---------------------------------------------------------------- placements

  /** The piece turned and slid to a placement, at the height where it is. */
  function Aimed(b: Block, col: int, rot: nat): Block { b.(rot := rot, col := col) }

  /** A placement is legal where the turned and slid piece fits. */
  predicate Legal(g: Game, col: int, rot: int) {
    !g.over && 0 <= rot < ROTATIONS && Fits(g.board, Aimed(g.current, col, rot))
  }

  /** The game after a placement: the piece dropped straight down and locked. */
  function PlacedAt(g: Game, col: int, rot: nat): Game {
    Locked(g.(current := Landing(g.board, Aimed(g.current, col, rot)), rotatedLast := false))
  }

  /** Every placement listed, in the order of the search: by rotation, then by column. */
  ghost predicate ListsLegal(g: Game, ps: seq<Placement>) {
    (forall p :: p in ps <==> Legal(g, p.col, p.rot) && 0 <= p.col < COLS) &&
    (forall i, j :: 0 <= i < j < |ps| ==> Earlier(ps[i], ps[j]))
  }

  predicate Earlier(p: Placement, q: Placement) { p.rot < q.rot || (p.rot == q.rot && p.col < q.col) }

  /** A placement keeps the game in order and locks where nothing is passed through. */
  lemma PlacedOk(g: Game, col: int, rot: nat)
    requires GameOk(g) && Legal(g, col, rot)
    ensures GameOk(PlacedAt(g, col, rot)) && 0 <= PlacedAt(g, col, rot).lines - g.lines <= 4
    ensures var l := Landing(g.board, Aimed(g.current, col, rot));
            Fits(g.board, l) && !Fits(g.board, l.Moved(1, 0)) &&
            forall r :: g.current.row <= r <= l.row ==> Fits(g.board, Aimed(g.current, col, rot).(row := r))
  {
    var b := Aimed(g.current, col, rot);
    LandingIsLast(g.board, b);
    FitsIsInside(g.board, Landing(g.board, b));
    LockedOk(g.(current := Landing(g.board, b), rotatedLast := false));
  }

  /** Whenever an L piece enters an empty board, a new game's included, it fits turned once in
      column -1, as its box is empty on the left, although no listed placement is there: the
      list covers exactly the legal placements with columns 0 to 9. */
  lemma UnlistedPlacement(g: Game)
    requires g.board == Blanks(ROWS) && g.current == Spawn(1) && !g.over
    ensures Legal(g, -1, 1)
    ensures forall ps :: ListsLegal(g, ps) ==> Placement(-1, 1) !in ps
  {
    BlanksAre(ROWS);
    var b := Aimed(g.current, -1, 1);
    OffsetAt(ShapeL(1), 0, -1);
    assert b.Tiles() == Offset(ShapeL(1), 0, -1);
    forall i | 0 <= i < |b.Tiles()|
      ensures CellEmpty(g.board, b.Tiles()[i].row, b.Tiles()[i].col)
    {
      assert b.Tiles()[i] == Position(ShapeL(1)[i].row, ShapeL(1)[i].col - 1);
    }
  }

  class SimGame {
    const grid: SimGrid
    var bag: seq<nat>
    var rng: nat
    var holes: nat
    var current: Block
    var next: seq<Block>
    var gravity: int
    var interval: int
    var soft: int
    var rotatedLast: bool
    var attack: int
    var pending: int
    var received: int
    var over: bool
    var score: int
    var lines: int
    var level: int
    ghost var taken: int
    ghost var dealt: seq<nat>

    ghost predicate Valid()
      reads this, grid, grid.grid
    {
      grid.Valid() && current.Valid() && |next| > 0
    }

    ghost function State(): Game
      reads this, grid
    {
      Game(grid.rows, bag, rng, holes, current, next, gravity, interval, soft, rotatedLast,
           attack, pending, received, taken, over, score, lines, level, dealt)
    }

    /** An empty board, a full bag; the garbage stream is forked off the seed. */
    constructor (seed: nat)
      ensures Valid() && fresh(grid) && fresh(grid.grid)
      ensures GameOk(State()) && !over && State() == NewGame(seed)
    {
      var g := new SimGrid();
      grid := g;
      var start := NewGame(seed);
      NewGameOk(seed);
      bag, rng, holes, current, next := start.bag, start.rng, start.holes, start.current, start.next;
      gravity, interval, soft, rotatedLast := 0, 30, 0, false;
      attack, pending, received, over, score, lines, level := 0, 0, 0, false, 0, 0, 1;
      taken, dealt := 0, start.dealt;
    }

    constructor Copy(other: SimGame)
      requires other.Valid()
      ensures Valid() && fresh(grid) && fresh(grid.grid) && State() == other.State()
    {
      var g := new SimGrid.Copy(other.grid);
      grid := g;
      bag, rng, holes, current, next := other.bag, other.rng, other.holes, other.current, other.next;
      gravity, interval, soft, rotatedLast := other.gravity, other.interval, other.soft, other.rotatedLast;
      attack, pending, received, over := other.attack, other.pending, other.received, other.over;
      score, lines, level := other.score, other.lines, other.level;
      taken, dealt := other.taken, other.dealt;
    }

    // ---------------------------------------------------------------- fit tests

    method IsBlockOutside(b: Block) returns (outside: bool)
      ensures outside == !Inside(b)
    {
      var tiles := b.Tiles();
      for i := 0 to |tiles|
        invariant forall j :: 0 <= j < i ==> !CellOutside(tiles[j].row, tiles[j].col)
      {
        if CellOutside(tiles[i].row, tiles[i].col) { return true; }
      }
      outside := false;
    }

    method BlockFits(b: Block) returns (fits: bool)
      requires Valid()
      ensures fits == Fits(grid.rows, b)
    {
      var tiles := b.Tiles();
      for i := 0 to |tiles|
        invariant forall j :: 0 <= j < i ==> CellEmpty(grid.rows, tiles[j].row, tiles[j].col)
      {
        if !grid.IsCellEmpty(tiles[i].row, tiles[i].col) { return false; }
      }
      fits := true;
    }

    method Blocked(b: Block) returns (blocked: bool)
      requires Valid()
      ensures blocked == !Fits(grid.rows, b)
    {
      var outside := IsBlockOutside(b);
      if outside {
        OutsideDoesNotFit(grid.rows, b);
        return true;
      }
      var fits := BlockFits(b);
      blocked := !fits;
    }

    /** Straight down until blocked, then one row back. */
    method HardDrop(b: Block) returns (landed: Block)
      requires Valid()
      ensures landed == DropTarget(grid.rows, b)
    {
      var cur := b;
      var blocked := Blocked(cur);
      while !blocked
        invariant blocked == !Fits(grid.rows, cur) && b.row <= cur.row
        invariant cur == b || Fits(grid.rows, cur.Moved(-1, 0))
        invariant Fits(grid.rows, b) ==>
                    Landing(grid.rows, b) == Landing(grid.rows, if blocked then cur.Moved(-1, 0) else cur)
        invariant !Fits(grid.rows, b) ==> cur == b
        decreases ROWS - cur.row, !blocked
      {
        FitsIsInside(grid.rows, cur);
        ghost var above := cur;
        cur := cur.Moved(1, 0);
        assert cur.Moved(-1, 0) == above;
        blocked := Blocked(cur);
      }
      landed := cur.Moved(-1, 0);
    }

    // ---------------------------------------------------------------- locking

    method CountCorner(r: int, c: int) returns (n: nat)
      requires Valid()
      ensures n == Corner(grid.rows, r, c)
    {
      n := if CellOutside(r, c) || !grid.IsCellEmpty(r, c) then 1 else 0;
    }

    method IsTSpinLock() returns (tspin: bool)
      requires Valid()
      ensures tspin == IsTSpin(State())
    {
      if current.id != 6 || !rotatedLast { return false; }
      var r, c := current.row + 1, current.col + 1;
      var nw := CountCorner(r - 1, c - 1);
      var ne := CountCorner(r - 1, c + 1);
      var sw := CountCorner(r + 1, c - 1);
      var se := CountCorner(r + 1, c + 1);
      tspin := nw + ne + sw + se >= 3;
    }

    /** Writes the current piece's cells.  A cell above the board is skipped here; the program
        writes in front of its array. */
    method StampCurrent()
      requires Valid()
      modifies this, grid, grid.grid
      ensures Valid() && State() == Stamped(old(State()))
    {
      var tiles := current.Tiles();
      ghost var was := grid.rows;
      var i := 0;
      assert tiles[0..] == tiles;
      while i < |tiles|
        invariant i <= |tiles| && Valid() && State() == old(State()).(board := grid.rows)
        invariant Stamp(grid.rows, tiles[i..], current.id) == Stamp(was, tiles, current.id)
      {
        assert tiles[i..][0] == tiles[i] && tiles[i..][1..] == tiles[i + 1..];
        if !CellOutside(tiles[i].row, tiles[i].col) {
          grid.Set(tiles[i].row, tiles[i].col, current.id);
        }
        i := i + 1;
      }
    }

    method EnterNext()
      requires Valid() && next[0].Valid() && |next| > 1
      modifies this
      ensures Valid() && State() == Entered(old(State()))
    {
      current := next[0];
      var fits := BlockFits(current);
      if !fits { over := true; }
      next := next[1..];
    }

    /** GetRandomBlock: draws from the bag, refilling it when empty. */
    method GetRandomBlock() returns (id: nat)
      modifies this
      ensures State().(next := old(next) + [Spawn(id)]) == Dealt(old(State()))
      ensures next == old(next)
    {
      if |bag| == 0 { bag := AllBlocks(); }
      var i := Draw(rng, |bag|);
      rng := Step(rng);
      id := bag[i];
      bag := Without(bag, i);
      dealt := dealt + [id];
    }

    method UpdateScore(n: nat, tspin: bool)
      modifies this
      ensures State() == Scored(old(State()), n, tspin)
    {
      score := score + Points(n, tspin) * level;
      lines := lines + n;
      LevelUp(lines / 10 + 1);
    }

    method LevelUp(reached: int)
      modifies this`level, this`interval
      ensures level == if reached > old(level) then (if reached > MAX_LEVEL then MAX_LEVEL else reached) else old(level)
      ensures interval == if reached > old(level) then (if IntervalFor(level) < 3 then 3 else IntervalFor(level))
                          else old(interval)
    {
      if reached > level {
        level := if reached > MAX_LEVEL then MAX_LEVEL else reached;
        interval := if IntervalFor(level) < 3 then 3 else IntervalFor(level);
      }
    }

    method ClearAndCredit(tspin: bool)
      requires Valid()
      modifies this, grid, grid.grid
      ensures Valid() && State() == Credited(old(State()), tspin)
    {
      var n := grid.ClearFullRows();
      rotatedLast := false;
      if n > 0 || tspin {
        UpdateScore(n, tspin);
        attack := attack + AttackLines(n, tspin);
      }
    }

    /** InsertGarbage for everything that is waiting. */
    method TakeGarbage()
      requires Valid()
      modifies this, grid, grid.grid
      ensures Valid() && State() == Attacked(old(State()))
    {
      if pending > 0 && !over {
        InsertGarbage(pending);
        received, taken, pending := pending, taken + pending, 0;
        var fits := BlockFits(current);
        over := !fits;
      } else {
        received := 0;
      }
    }

    method InsertGarbage(n: nat)
      requires Valid() && n > 0
      modifies this`holes, grid, grid.grid
      ensures Valid() && grid.rows == Raised(old(grid.rows), AtMostRows(n), Draw(old(holes), COLS))
      ensures holes == Step(old(holes))
    {
      var hole := Draw(holes, COLS);
      holes := Step(holes);
      grid.RaiseGarbage(AtMostRows(n), hole);
    }

    method LockBlock()
      requires Valid() && next[0].Valid() && |next| > 1
      modifies this, grid, grid.grid
      ensures Valid() && State() == Locked(old(State())) && (old(Lockable(State())) ==> Locks(old(State()), State()))
    {
      if Lockable(State()) { LockedLocks(State()); }
      var tspin := IsTSpinLock();
      StampCurrent();
      EnterNext();
      var id := GetRandomBlock();
      next := next + [Spawn(id)];
      ClearAndCredit(tspin);
      TakeGarbage();
    }

    method AddPendingGarbage(rows: int)
      modifies this
      ensures State() == Threatened(old(State()), rows)
    {
      if rows > 0 { pending := pending + rows; }
    }

    // ---------------------------------------------------------------- frame-level moves

    /** MoveBlockLeft and MoveBlockRight: one column, taken back if it does not fit. */
    method MoveSideways(cols: int)
      requires Valid()
      modifies this
      ensures Valid() && State() == Shifted(old(State()), cols)
    {
      if over { return; }
      var was := current;
      current := current.Moved(0, cols);
      var blocked := Blocked(current);
      if blocked { current := was; } else { rotatedLast := false; }
    }

    method RotateBlock()
      requires Valid()
      modifies this
      ensures Valid() && State() == Turned(old(State()))
    {
      if over { return; }
      var was := current;
      current := current.Rotated();
      var blocked := Blocked(current);
      if blocked {
        current := current.RotationUndone();
        assert current == was;
      } else {
        rotatedLast := true;
      }
    }

    /** Down by one, or, where that does not fit, locked where it is. */
    method MoveBlockDown()
      requires Valid() && GameOk(State())
      modifies this, grid, grid.grid
      ensures Valid() && GameOk(State()) && State() == Lowered(old(State()))
    {
      LoweredOk(State());
      if over { return; }
      assert NewPiece(next[0]);
      var down := current.Moved(1, 0);
      var blocked := Blocked(down);
      if blocked {
        LockBlock();
      } else {
        current := down;
        rotatedLast := false;
      }
    }

    /** Hard drop, from wherever the piece is. */
    method MoveBlockDrop()
      requires Valid() && GameOk(State())
      modifies this, grid, grid.grid
      ensures Valid() && State() == Dropped(old(State()))
    {
      if over { return; }
      assert NewPiece(next[0]);
      LandingIsBelow(grid.rows, current);
      current := HardDrop(current);
      LockBlock();
    }

    method SoftDrop(held: bool)
      requires Valid() && GameOk(State())
      modifies this, grid, grid.grid
      ensures Valid() && State() == SoftDropped(old(State()), held)
    {
      if !held {
        soft := 0;
      } else if soft <= 0 {
        MoveBlockDown();
        soft := SOFT_DROP_TICKS;
      } else {
        soft := soft - 1;
      }
    }

    method Steer(mask: nat)
      requires Valid() && GameOk(State())
      modifies this, grid, grid.grid
      ensures Valid() && GameOk(State()) && State() == Steered(old(State()), mask)
    {
      SteeredOk(State(), mask);
      NudgedOk(State(), mask);
      if HasInput(mask, INPUT_LEFT) { MoveSideways(-1); }
      if HasInput(mask, INPUT_RIGHT) { MoveSideways(1); }
      SoftDrop(HasInput(mask, INPUT_DOWN));
      if HasInput(mask, INPUT_ROTATE) { RotateBlock(); }
    }

    /** SubmitInput: one tick's input. */
    method SubmitInput(mask: nat)
      requires Valid() && GameOk(State())
      modifies this, grid, grid.grid
      ensures Valid() && GameOk(State()) && State() == Submitted(old(State()), mask)
      ensures if old(over) then State() == old(State()) else Obeys(old(State()), State(), mask)
    {
      SubmittedOk(State(), mask);
      InputObeys(State(), mask);
      if over { return; }
      Steer(mask);
      if HasInput(mask, INPUT_DROP) { MoveBlockDrop(); }
    }

    /** Tick: gravity. */
    method Tick()
      requires Valid() && GameOk(State())
      modifies this, grid, grid.grid
      ensures Valid() && GameOk(State()) && State() == Ticked(old(State())) && Pulled(old(State()), State())
    {
      TickedOk(State());
      TickedPulled(State());
      if over { return; }
      gravity := gravity + 1;
      if gravity >= interval {
        gravity := 0;
        MoveBlockDown();
      }
    }

    // ---------------------------------------------------------------- placements

    /** Turns clockwise until the rotation is reached. */
    method TurnTo(b: Block, rot: nat) returns (t: Block)
      requires b.Valid() && rot < ROTATIONS
      ensures t == b.(rot := rot)
    {
      t := b;
      while t.rot != rot
        invariant t.Valid() && t == b.(rot := t.rot)
        decreases (rot + ROTATIONS - t.rot) % ROTATIONS
      {
        t := t.Rotated();
      }
    }

    /** ApplyPlacement: -1, and nothing changes, for an illegal placement; otherwise the piece
        is placed and the number of rows it cleared returned. */
    method ApplyPlacement(col: int, rot: int) returns (cleared: int)
      requires Valid() && GameOk(State())
      modifies this, grid, grid.grid
      ensures Valid()
      ensures cleared == -1 <==> !Legal(old(State()), col, rot)
      ensures cleared == -1 ==> State() == old(State())
      ensures cleared != -1 ==>
                0 <= rot && State() == PlacedAt(old(State()), col, rot) && cleared == lines - old(lines) &&
                0 <= cleared <= 4
    {
      if over || rot < 0 || rot >= ROTATIONS { return -1; }
      assert NewPiece(next[0]);
      var target := TurnTo(current, rot);
      target := target.(col := col);
      assert target == Aimed(current, col, rot);
      var blocked := Blocked(target);
      if blocked { return -1; }
      PlacedOk(State(), col, rot);
      cleared := Place(target);
    }

    /** The target dropped straight down and locked. */
    method Place(target: Block) returns (cleared: int)
      requires Valid() && Fits(grid.rows, target) && target.Valid() && next[0].Valid() && |next| > 1
      modifies this, grid, grid.grid
      ensures Valid() && cleared == lines - old(lines)
      ensures State() == Locked(old(State()).(current := Landing(old(grid.rows), target), rotatedLast := false))
    {
      var before := lines;
      LandingIsLast(grid.rows, target);
      var landed := HardDrop(target);
      FitsIsInside(grid.rows, landed);
      current := landed;
      rotatedLast := false;
      LockBlock();
      cleared := lines - before;
    }

    method LegalPlacements() returns (ps: seq<Placement>)
      requires Valid()
      ensures ListsLegal(State(), ps)
    {
      ps := [];
      if over { return; }
      var rot := 0;
      while rot < ROTATIONS
        invariant rot <= ROTATIONS && ListedUpTo(State(), ps, rot, 0)
      {
        var col := 0;
        while col < COLS
          invariant col <= COLS && ListedUpTo(State(), ps, rot, col)
        {
          var legal := TryPlacement(col, rot);
          ListOne(State(), ps, rot, col);
          if legal { ps := ps + [Placement(col, rot)]; }
          col := col + 1;
        }
        NextRotation(State(), ps, rot);
        rot := rot + 1;
      }
      AllListed(State(), ps);
    }

    /** Turned and slid the piece fits; a hard drop from there ends where it fits. */
    method TryPlacement(col: int, rot: nat) returns (legal: bool)
      requires Valid() && !over && rot < ROTATIONS
      ensures legal == Legal(State(), col, rot)
    {
      var test := TurnTo(current, rot);
      test := test.(col := col);
      assert test == Aimed(current, col, rot);
      var blocked := Blocked(test);
      if blocked { return false; }
      LandingIsLast(grid.rows, test);
      var landed := HardDrop(test);
      blocked := Blocked(landed);
      legal := !blocked;
    }
  }

  lemma OutsideDoesNotFit(board: Board, b: Block)
    requires Shaped(board) && !Inside(b)
    ensures !Fits(board, b)
  {
    var i :| 0 <= i < |b.Tiles()| && CellOutside(b.Tiles()[i].row, b.Tiles()[i].col);
    assert !CellEmpty(board, b.Tiles()[i].row, b.Tiles()[i].col);
  }

  // ---------------------------------------------------------------- the search for placements

  /** Listed so far: the legal placements of earlier rotations, and of this one up to a column. */
  ghost predicate ListedUpTo(g: Game, ps: seq<Placement>, rot: nat, col: nat) {
    (forall p :: p in ps <==>
       Legal(g, p.col, p.rot) && 0 <= p.col < COLS && (p.rot < rot || (p.rot == rot && p.col < col))) &&
    (forall i, j :: 0 <= i < j < |ps| ==> Earlier(ps[i], ps[j]))
  }

  lemma ListOne(g: Game, ps: seq<Placement>, rot: nat, col: nat)
    requires ListedUpTo(g, ps, rot, col) && col < COLS
    ensures ListedUpTo(g, if Legal(g, col, rot) then ps + [Placement(col, rot)] else ps, rot, col + 1)
  {
    var all := if Legal(g, col, rot) then ps + [Placement(col, rot)] else ps;
    forall p: Placement
      ensures p in all <==> p in ps || (Legal(g, col, rot) && p == Placement(col, rot))
    {}
    forall i, j | 0 <= i < j < |all|
      ensures Earlier(all[i], all[j])
    {
      if j == |ps| { assert ps[i] in ps; }
    }
  }

  lemma NextRotation(g: Game, ps: seq<Placement>, rot: nat)
    requires ListedUpTo(g, ps, rot, COLS)
    ensures ListedUpTo(g, ps, rot + 1, 0)
  {}

  lemma AllListed(g: Game, ps: seq<Placement>)
    requires ListedUpTo(g, ps, ROTATIONS, 0)
    ensures ListsLegal(g, ps)
  {}

  // ---------------------------------------------------------------- runs of placements

  datatype Act = Place(col: int, rot: int) | Garbage(rows: int)

  function Acted(g: Game, a: Act): Game {
    match a
    case Place(col, rot) => if Legal(g, col, rot) then PlacedAt(g, col, rot) else g
    case Garbage(rows) => Threatened(g, rows)
  }

  function Played(g: Game, acts: seq<Act>): Game {
    if |acts| == 0 then g else Acted(Played(g, acts[..|acts| - 1]), acts[|acts| - 1])
  }

  function GarbageSum(acts: seq<Act>): nat {
    if |acts| == 0 then 0
    else GarbageSum(acts[..|acts| - 1]) +
         match acts[|acts| - 1] { case Place(_, _) => 0 case Garbage(rows) => if rows > 0 then rows else 0 }
  }

  /** Over every run of placements and incoming garbage the game stays in order, and all
      garbage ever sent either waits or has come in. */
  lemma {:induction false} PlayedOk(g: Game, acts: seq<Act>)
    requires GameOk(g)
    ensures var h := Played(g, acts);
            GameOk(h) && h.pending + h.taken == g.pending + g.taken + GarbageSum(acts)
  {
    if |acts| > 0 {
      var before := Played(g, acts[..|acts| - 1]);
      PlayedOk(g, acts[..|acts| - 1]);
      match acts[|acts| - 1]
      case Garbage(_) =>
      case Place(col, rot) =>
        if Legal(before, col, rot) {
          PlacedOk(before, col, rot);
          LockConserves(before.(current := Landing(before.board, Aimed(before.current, col, rot)),
                                       rotatedLast := false));
        }
    }
  }

  // ---------------------------------------------------------------- a new game

  /** The game dealt n more pieces to its preview. */
  function DealtTimes(g: Game, n: nat): Game
    decreases n
  {
    if n == 0 then g else DealtTimes(Dealt(g), n - 1)
  }

  /** An empty board with a full bag and nothing dealt. */
  function Undealt(rng: nat, holes: nat): Game {
    Game(Blanks(ROWS), AllBlocks(), rng, holes, Spawn(3), [], 0, 30, 0, false, 0, 0, 0, 0, false, 0, 0, 1, [])
  }

  function FirstEntered(g: Game): Game {
    if |g.next| == 0 then g else g.(current := g.next[0], next := g.next[1..])
  }

  function NewGame(seed: nat): Game {
    var s := if seed == 0 then 0xC0FFEE123456789 else seed;
    FirstEntered(DealtTimes(Undealt(Seeded(s), Seeded(Forked(s))), PREVIEW + 1))
  }

  /** What holds of a game while only its preview is dealt. */
  ghost predicate Dealing(g: Game) {
    BagOk(g.bag) && forall i :: 0 <= i < |g.next| ==> NewPiece(g.next[i])
  }

  lemma {:induction false} DealtTimesOk(g: Game, n: nat)
    requires Dealing(g)
    ensures Dealing(DealtTimes(g, n)) && |DealtTimes(g, n).next| == |g.next| + n
    decreases n
  {
    if n > 0 {
      DealtOk(g);
      DealtTimesOk(Dealt(g), n - 1);
    }
  }

  lemma {:induction false} DealtTimesFrame(g: Game, n: nat)
    ensures var h := DealtTimes(g, n);
            h == g.(bag := h.bag, next := h.next, rng := h.rng, dealt := h.dealt)
    decreases n
  {
    if n > 0 {
      DealtTimesFrame(Dealt(g), n - 1);
    }
  }

  lemma NewGameOk(seed: nat)
    ensures GameOk(NewGame(seed)) && !NewGame(seed).over
    ensures Untouched(NewGame(seed))
  {
    var s := if seed == 0 then 0xC0FFEE123456789 else seed;
    DealtGameOk(Seeded(s), Seeded(Forked(s)), PREVIEW + 1);
  }

  /** Nothing has happened on the board. */
  ghost predicate Untouched(g: Game) {
    g == Game(Blanks(ROWS), g.bag, g.rng, g.holes, g.current, g.next, 0, 30, 0, false, 0, 0, 0, 0, false, 0, 0, 1,
              g.dealt)
  }

  lemma DealtGameOk(rng: nat, holes: nat, n: nat)
    requires n == PREVIEW + 1
    ensures var g := FirstEntered(DealtTimes(Undealt(rng, holes), n));
            GameOk(g) && !g.over && Untouched(g)
  {
    var start := Undealt(rng, holes);
    assert Dealing(start);
    DealtTimesOk(start, n);
    DealtTimesFrame(start, n);
    FirstEnters(DealtTimes(start, n));
    UntouchedOk(FirstEntered(DealtTimes(start, n)));
  }

  lemma UntouchedOk(g: Game)
    requires Untouched(g) && PiecesOk(g) && g.current.Valid() && Inside(g.current)
    ensures GameOk(g)
  {
    BlankBoardOk();
  }

  lemma FirstEnters(g: Game)
    requires Dealing(g) && |g.next| == PREVIEW + 1
    ensures var h := FirstEntered(g);
            PiecesOk(h) && h.current.Valid() && Inside(h.current)
  {
    SpawnInside(g.next[0].id);
    assert NewPiece(g.next[0]);
  }

  lemma BlankBoardOk()
    ensures BoardOk(Blanks(ROWS))
  {
    BlanksAre(ROWS);
    assert forall c :: 0 <= c < COLS ==> Blank()[c] == 0;
    assert Blank()[0] == 0 && !Full(Blank());
  }
}
