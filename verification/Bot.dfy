/** bot/placement.cpp: choosing a placement by trying each of them on a copy of the game. */
module Bot {
  import opened SimGrid
  import opened SimBlock
  import opened SimRules
  import opened SimGame

  // ---------------------------------------------------------------- scoring a board

  /** A settled cell; the landing preview (8) does not count. */
  predicate IsLocked(v: int) { v > 0 && v != 8 }

  predicate LockedAt(b: Board, r: nat, c: nat) {
    r < |b| && c < |b[r]| && IsLocked(b[r][c])
  }

  /** The first row at or below r with a settled cell in column c; ROWS if there is none. */
  function Top(b: Board, c: nat, r: nat): (t: nat)
    ensures r <= ROWS ==> r <= t <= ROWS
    decreases ROWS - r
  {
    if r >= ROWS || LockedAt(b, r, c) then r else Top(b, c, r + 1)
  }

  function Height(b: Board, c: nat): nat { ROWS - Top(b, c, 0) }

  /** Cells in column c from row r down that are not settled. */
  function Gaps(b: Board, c: nat, r: nat): nat
    decreases ROWS - r
  {
    if r >= ROWS then 0 else (if LockedAt(b, r, c) then 0 else 1) + Gaps(b, c, r + 1)
  }

  function Heights(b: Board, n: nat): int { if n == 0 then 0 else Heights(b, n - 1) + Height(b, n - 1) }

  function Holes(b: Board, n: nat): int { if n == 0 then 0 else Holes(b, n - 1) + Gaps(b, n - 1, Top(b, n - 1, 0)) }

  function Gap(x: int, y: int): int { if x < y then y - x else x - y }

  /** Height differences between the first n + 1 columns. */
  function Bumps(b: Board, n: nat): int {
    if n == 0 then 0 else Bumps(b, n - 1) + Gap(Height(b, n - 1), Height(b, n))
  }

  function Weigh(height: int, cleared: int, holes: int, bumps: int): real {
    -0.510066 * height as real + 0.760666 * cleared as real - 0.356630 * holes as real - 0.184483 * bumps as real
  }

  function Eval(b: Board, cleared: int): real {
    Weigh(Heights(b, COLS), cleared, Holes(b, COLS), Bumps(b, COLS - 1))
  }

  // ---------------------------------------------------------------- what the sums count

  type Cell = (nat, nat)

  /** Cells of the first n columns with a settled cell in them or above them. */
  ghost function Under(b: Board, n: nat): set<Cell> {
    set r: nat, c: nat | r < ROWS && c < n && Roofed(b, r + 1, c) :: (r, c)
  }

  /** Cells of the first n columns that are not settled and have a settled cell above them. */
  ghost function Hollow(b: Board, n: nat): set<Cell> {
    set r: nat, c: nat | r < ROWS && c < n && !LockedAt(b, r, c) && Roofed(b, r, c) :: (r, c)
  }

  /** There is a settled cell in column c above row r. */
  ghost predicate Roofed(b: Board, r: nat, c: nat) { exists k: nat :: k < r && LockedAt(b, k, c) }

  lemma {:induction false} TopRoofs(b: Board, c: nat, from: nat, r: nat)
    requires from <= ROWS && r <= ROWS && forall k: nat :: k < from ==> !LockedAt(b, k, c)
    ensures Roofed(b, r, c) <==> Top(b, c, from) < r
    decreases ROWS - from
  {
    if from < ROWS && !LockedAt(b, from, c) {
      TopRoofs(b, c, from + 1, r);
    }
  }

  /** The cells of column c from row r down, all of them or those not settled. */
  ghost function Column(c: nat, r: nat): set<Cell> { set k: nat | r <= k < ROWS :: (k, c) }

  ghost function Unsettled(b: Board, c: nat, r: nat): set<Cell> {
    set k: nat | r <= k < ROWS && !LockedAt(b, k, c) :: (k, c)
  }

  lemma {:induction false} ColumnSize(c: nat, r: nat)
    requires r <= ROWS
    ensures |Column(c, r)| == ROWS - r
    decreases ROWS - r
  {
    if r < ROWS {
      ColumnSize(c, r + 1);
      assert Column(c, r) == Column(c, r + 1) + {(r, c)};
    } else {
      assert Column(c, r) == {};
    }
  }

  lemma {:induction false} GapsCount(b: Board, c: nat, r: nat)
    requires r <= ROWS
    ensures Gaps(b, c, r) == |Unsettled(b, c, r)|
    decreases ROWS - r
  {
    if r < ROWS {
      GapsCount(b, c, r + 1);
      var rest := Unsettled(b, c, r + 1);
      assert Unsettled(b, c, r) == if LockedAt(b, r, c) then rest else rest + {(r, c)};
    } else {
      assert Unsettled(b, c, r) == {};
    }
  }

  lemma UnderColumn(b: Board, n: nat)
    requires n < COLS
    ensures Under(b, n + 1) == Under(b, n) + Column(n, Top(b, n, 0)) && Under(b, n) !! Column(n, Top(b, n, 0))
  {
    forall r: nat | r < ROWS
      ensures (r, n) in Under(b, n + 1) <==> (r, n) in Column(n, Top(b, n, 0))
    {
      TopRoofs(b, n, 0, r + 1);
    }
  }

  lemma HollowColumn(b: Board, n: nat)
    requires n < COLS
    ensures Hollow(b, n + 1) == Hollow(b, n) + Unsettled(b, n, Top(b, n, 0))
    ensures Hollow(b, n) !! Unsettled(b, n, Top(b, n, 0))
  {
    forall r: nat | r < ROWS
      ensures (r, n) in Hollow(b, n + 1) <==> (r, n) in Unsettled(b, n, Top(b, n, 0))
    {
      TopRoofs(b, n, 0, r);
      TopRoofs(b, n, 0, r + 1);
      if !LockedAt(b, r, n) && Roofed(b, r + 1, n) {
        var k: nat :| k < r + 1 && LockedAt(b, k, n);
        assert k < r;
      }
    }
  }

  lemma UnderSize(b: Board, n: nat, next: nat)
    requires n < COLS && next == n + 1
    ensures |Under(b, next)| == |Under(b, n)| + Height(b, n)
  {
    UnderColumn(b, n);
    ColumnSize(n, Top(b, n, 0));
    Together(Under(b, n), Column(n, Top(b, n, 0)));
  }

  lemma HollowSize(b: Board, n: nat, next: nat)
    requires n < COLS && next == n + 1
    ensures |Hollow(b, next)| == |Hollow(b, n)| + Gaps(b, n, Top(b, n, 0))
  {
    HollowColumn(b, n);
    GapsCount(b, n, Top(b, n, 0));
    Together(Hollow(b, n), Unsettled(b, n, Top(b, n, 0)));
  }

  lemma NothingUnder(b: Board)
    ensures Under(b, 0) == {} && Hollow(b, 0) == {}
  {}

  /** The sum of heights is the number of cells that are settled or lie under a settled one, the
      number of holes that of the others among these. */
  lemma {:induction false} SumsCount(b: Board, n: nat)
    requires n <= COLS
    ensures Heights(b, n) == |Under(b, n)| && Holes(b, n) == |Hollow(b, n)|
  {
    if n == 0 {
      NothingUnder(b);
    } else {
      SumsCount(b, n - 1);
      UnderSize(b, n - 1, n);
      HollowSize(b, n - 1, n);
    }
  }

  lemma Together(x: set<Cell>, y: set<Cell>)
    requires x !! y
    ensures |x + y| == |x| + |y|
  {}

  /** Lower, flatter, with fewer holes and more rows cleared never scores less. */
  lemma WeighPrefers(height: int, cleared: int, holes: int, bumps: int, height': int, cleared': int, holes': int,
                     bumps': int)
    requires height <= height' && cleared >= cleared' && holes <= holes' && bumps <= bumps'
    ensures Weigh(height, cleared, holes, bumps) >= Weigh(height', cleared', holes', bumps')
  {}

  /** The first settled row of a column. */
  method FindTop(g: SimGrid, c: nat) returns (top: nat)
    requires g.Valid() && c < COLS
    ensures top == Top(g.rows, c, 0)
  {
    top := 0;
    while top < ROWS && !IsLocked(g.grid[top, c])
      invariant top <= ROWS && Top(g.rows, c, 0) == Top(g.rows, c, top)
    {
      top := top + 1;
    }
  }

  method CountGaps(g: SimGrid, c: nat, top: nat) returns (n: nat)
    requires g.Valid() && c < COLS && top <= ROWS
    ensures n == Gaps(g.rows, c, top)
  {
    n := 0;
    var r := top;
    while r < ROWS
      invariant top <= r <= ROWS && n + Gaps(g.rows, c, r) == Gaps(g.rows, c, top)
    {
      if !IsLocked(g.grid[r, c]) { n := n + 1; }
      r := r + 1;
    }
  }

  /** eval_board */
  method EvalBoard(g: SimGrid, cleared: int) returns (score: real)
    requires g.Valid()
    ensures score == Eval(g.rows, cleared)
  {
    var top := FindTop(g, 0);
    var gaps := CountGaps(g, 0, top);
    var height, holes, bumps, last: int := ROWS - top, gaps, 0, ROWS - top;
    var c := 0;
    while c < COLS - 1
      invariant 0 <= c < COLS && Summed(g.rows, c, height, holes, bumps, last)
    {
      var next := c + 1;
      top := FindTop(g, next);
      gaps := CountGaps(g, next, top);
      NextColumn(g.rows, c, next, height, holes, bumps, last);
      bumps := bumps + Gap(last, ROWS - top);
      height, holes, last := height + (ROWS - top), holes + gaps, ROWS - top;
      c := next;
    }
    score := Weigh(height, cleared, holes, bumps);
  }

  /** The sums over columns 0 to c. */
  ghost predicate Summed(b: Board, c: nat, height: int, holes: int, bumps: int, last: int) {
    height == Heights(b, c + 1) && holes == Holes(b, c + 1) && bumps == Bumps(b, c) && last == Height(b, c)
  }

  lemma NextColumn(b: Board, c: nat, next: nat, height: int, holes: int, bumps: int, last: int)
    requires next == c + 1 && Summed(b, c, height, holes, bumps, last)
    ensures Summed(b, next, height + Height(b, next), holes + Gaps(b, next, Top(b, next, 0)),
                   bumps + Gap(last, Height(b, next)), Height(b, next))
  {}

  // ---------------------------------------------------------------- choosing

  /** What the bot thinks of the game after a placement. */
  ghost function Score(g: Game, p: Placement): real {
    if p.rot < 0 then 0.0
    else
      var h := PlacedAt(g, p.col, p.rot);
      Eval(h.board, h.lines - g.lines)
  }

  /** The bot's judgement of the placements of one game. */
  ghost function Judgement(g: Game): Placement -> real {
    (p: Placement) => Score(g, p)
  }

  ghost predicate Listed(g: Game, p: Placement) { Legal(g, p.col, p.rot) && 0 <= p.col < COLS }

  /** p is the first best: no listed placement scores higher, none before it as high. */
  ghost predicate FirstBest(g: Game, p: Placement) {
    Listed(g, p) &&
    forall q :: Listed(g, q) ==>
      Judgement(g)(q) <= Judgement(g)(p) && (Earlier(q, p) ==> Judgement(g)(q) < Judgement(g)(p))
  }

  /** p is first by column, then by rotation. */
  ghost predicate Leftmost(g: Game, p: Placement) {
    Listed(g, p) && forall q :: Listed(g, q) ==> p.col < q.col || (p.col == q.col && p.rot <= q.rot)
  }

  /** heuristic_placement: succeeds exactly if there is a legal placement, and returns the
      first that scores highest; the game itself is not touched. */
  method HeuristicPlacement(sim: SimGame) returns (found: bool, best: Placement)
    requires sim.Valid() && GameOk(sim.State())
    ensures found <==> exists q :: Listed(sim.State(), q)
    ensures found ==> FirstBest(sim.State(), best)
  {
    ghost var g := sim.State();
    var ps := sim.LegalPlacements();
    found, best := false, Placement(0, 0);
    var top := 0.0;
    ghost var at := 0;
    ghost var f := Judgement(g);
    var i := 0;
    while i < |ps|
      invariant i <= |ps| && sim.Valid() && sim.State() == g && ListsLegal(g, ps)
      invariant (found <==> i > 0) &&
                (found ==> at < i && FirstMaximum(ps[..i], f, at) && best == ps[at] && top == f(best))
    {
      assert ps[i] in ps;
      var s := Try(sim, ps[i]);
      NextBest(ps, f, i, i + 1, at, s);
      if !found || s > top { top, best, found, at := s, ps[i], true, i; }
      i := i + 1;
    }
    assert ps[..i] == ps;
    SomeListed(g, ps);
    if found { BestOfAll(g, ps, at); }
  }

  /** No element is valued higher than the one at k, and none before it as high. */
  ghost predicate FirstMaximum(ps: seq<Placement>, f: Placement -> real, k: nat) {
    k < |ps| && forall j :: 0 <= j < |ps| ==> f(ps[j]) <= f(ps[k]) && (j < k ==> f(ps[j]) < f(ps[k]))
  }

  lemma NextBest(ps: seq<Placement>, f: Placement -> real, i: nat, next: nat, at: nat, s: real)
    requires next == i + 1 && next <= |ps| && s == f(ps[i])
    requires i > 0 ==> FirstMaximum(ps[..i], f, at)
    ensures if i == 0 || s > f(ps[at]) then FirstMaximum(ps[..next], f, i) else FirstMaximum(ps[..next], f, at)
  {
    assert forall j :: 0 <= j < i ==> ps[..i][j] == ps[j];
  }

  /** One placement tried on a copy. */
  method Try(sim: SimGame, p: Placement) returns (score: real)
    requires sim.Valid() && GameOk(sim.State()) && Listed(sim.State(), p)
    ensures score == Judgement(sim.State())(p)
  {
    var trial := new SimGame.Copy(sim);
    var cleared := trial.ApplyPlacement(p.col, p.rot);
    score := EvalBoard(trial.grid, cleared);
  }

  lemma BestOfAll(g: Game, ps: seq<Placement>, k: nat)
    requires ListsLegal(g, ps) && FirstMaximum(ps, Judgement(g), k)
    ensures FirstBest(g, ps[k])
  {
    var f := Judgement(g);
    assert ps[k] in ps;
    forall q | Listed(g, q)
      ensures f(q) <= f(ps[k]) && (Earlier(q, ps[k]) ==> f(q) < f(ps[k]))
    {
      assert q in ps;
      var j :| 0 <= j < |ps| && ps[j] == q;
      if j > k { assert Earlier(ps[k], ps[j]); }
    }
  }

  /** fallback_placement: the leftmost legal placement. */
  method FallbackPlacement(sim: SimGame) returns (found: bool, p: Placement)
    requires sim.Valid()
    ensures found <==> exists q :: Listed(sim.State(), q)
    ensures found ==> Leftmost(sim.State(), p)
  {
    ghost var g := sim.State();
    var ps := sim.LegalPlacements();
    p := Placement(0, 0);
    SomeListed(g, ps);
    if |ps| == 0 { return false, p; }
    assert ps[0] in ps;
    found, p := true, ps[0];
    var i := 1;
    while i < |ps|
      invariant 1 <= i <= |ps| && p in ps && Precedes(ps[..i], p)
    {
      var next := i + 1;
      assert ps[..next] == ps[..i] + [ps[i]];
      if ps[i].col < p.col || (ps[i].col == p.col && ps[i].rot < p.rot) { p := ps[i]; }
      i := next;
    }
    assert ps[..i] == ps;
  }

  lemma SomeListed(g: Game, ps: seq<Placement>)
    requires ListsLegal(g, ps)
    ensures |ps| > 0 <==> exists q :: Listed(g, q)
  {
    if |ps| > 0 {
      assert ps[0] in ps;
      assert Listed(g, ps[0]);
    }
    if q :| Listed(g, q) {
      assert q in ps;
    }
  }

  ghost predicate Precedes(ps: seq<Placement>, p: Placement) {
    forall q :: q in ps ==> p.col < q.col || (p.col == q.col && p.rot <= q.rot)
  }
}
