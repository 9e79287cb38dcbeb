/** src/sim_grid.h: the 20 x 10 board, its cell tests and the clearing of full rows in place. */
module SimGrid {
  const ROWS: nat := 20
  const COLS: nat := 10

  type Row = seq<int>
  type Board = seq<Row>

  predicate Shaped(b: Board) {
    |b| == ROWS && forall r :: 0 <= r < ROWS ==> |b[r]| == COLS
  }

  predicate CellOutside(r: int, c: int) {
    !(0 <= r < ROWS && 0 <= c < COLS)
  }

  /** 0 is empty, 8 the landing preview; anything outside counts as occupied. */
  predicate CellEmpty(b: Board, r: int, c: int) {
    0 <= r < |b| && 0 <= c < |b[r]| && (b[r][c] == 0 || b[r][c] == 8)
  }

  /** One cell written; nothing, if there is no such cell. */
  function Put(b: Board, r: int, c: int, v: int): Board {
    if 0 <= r < |b| && 0 <= c < |b[r]| then b[r := b[r][c := v]] else b
  }

  // ---------------------------------------------------------------- full rows

  predicate Full(row: Row) {
    forall c :: 0 <= c < |row| ==> row[c] != 0
  }

  ghost predicate NoFullRow(b: Board) {
    forall r :: 0 <= r < |b| ==> !Full(b[r])
  }

  function Blank(): Row { [0, 0, 0, 0, 0, 0, 0, 0, 0, 0] }

  function Blanks(n: nat): seq<Row> {
    if n == 0 then [] else [Blank()] + Blanks(n - 1)
  }

  function Fulls(rows: seq<Row>): nat {
    if |rows| == 0 then 0 else (if Full(rows[0]) then 1 else 0) + Fulls(rows[1..])
  }

  /** The rows that are not full, in order. */
  function Kept(rows: seq<Row>): seq<Row> {
    if |rows| == 0 then [] else (if Full(rows[0]) then [] else [rows[0]]) + Kept(rows[1..])
  }

  /** Full rows deleted, order kept, blank rows on top. */
  function Cleared(b: Board): Board {
    Blanks(Fulls(b)) + Kept(b)
  }

  lemma {:induction false} BlanksAre(n: nat)
    ensures |Blanks(n)| == n && forall r :: 0 <= r < n ==> Blanks(n)[r] == Blank()
  {
    if n > 0 {
      BlanksAre(n - 1);
    }
  }

  lemma {:induction false} BlanksLast(n: nat)
    ensures Blanks(n) + [Blank()] == Blanks(n + 1)
  {
    if n > 0 {
      BlanksLast(n - 1);
      Associate([Blank()], Blanks(n - 1), [Blank()]);
    }
  }

  lemma Associate<T>(a: seq<T>, b: seq<T>, c: seq<T>)
    ensures (a + b) + c == a + (b + c)
  {}

  lemma {:induction false} KeptCount(rows: seq<Row>)
    ensures |Kept(rows)| + Fulls(rows) == |rows|
  {
    if |rows| > 0 {
      KeptCount(rows[1..]);
    }
  }

  /** What is kept are rows of the board, none of them full. */
  lemma {:induction false} KeptRows(rows: seq<Row>)
    ensures forall r :: 0 <= r < |Kept(rows)| ==> Kept(rows)[r] in rows && !Full(Kept(rows)[r])
  {
    if |rows| > 0 {
      var tail := rows[1..];
      KeptRows(tail);
      forall r | 0 <= r < |Kept(rows)|
        ensures Kept(rows)[r] in rows && !Full(Kept(rows)[r])
      {
        if Full(rows[0]) || r > 0 {
          var row := if Full(rows[0]) then Kept(tail)[r] else Kept(tail)[r - 1];
          assert row in tail;
        }
      }
    }
  }

  /** Clearing leaves a board of the same shape without full rows. */
  lemma ClearedIsClear(b: Board)
    requires Shaped(b)
    ensures Shaped(Cleared(b)) && NoFullRow(Cleared(b))
  {
    BlanksAre(Fulls(b));
    KeptCount(b);
    KeptRows(b);
    forall r | 0 <= r < |Cleared(b)|
      ensures |Cleared(b)[r]| == COLS && !Full(Cleared(b)[r])
    {
      ClearedRow(b, r);
    }
  }

  lemma ClearedRow(b: Board, r: nat)
    requires Shaped(b) && r < |Cleared(b)| && |Blanks(Fulls(b))| == Fulls(b)
    requires forall i :: 0 <= i < Fulls(b) ==> Blanks(Fulls(b))[i] == Blank()
    requires forall i :: 0 <= i < |Kept(b)| ==> Kept(b)[i] in b && !Full(Kept(b)[i])
    ensures |Cleared(b)[r]| == COLS && !Full(Cleared(b)[r])
  {
    if r < Fulls(b) {
      assert Cleared(b)[r] == Blank();
      assert Blank()[0] == 0;
    } else {
      assert Cleared(b)[r] == Kept(b)[r - Fulls(b)];
    }
  }

  /** The full rows of b from row r on. */
  function FullFrom(b: Board, r: nat): set<nat> { set i: nat | r <= i < |b| && Full(b[i]) }

  lemma {:induction false} FullsCount(b: Board, r: nat)
    requires r <= |b|
    ensures Fulls(b[r..]) == |FullFrom(b, r)|
    decreases |b| - r
  {
    if r < |b| {
      FullsCount(b, r + 1);
      assert b[r..][1..] == b[r + 1..];
      var more := FullFrom(b, r + 1);
      assert FullFrom(b, r) == if Full(b[r]) then more + {r} else more;
    } else {
      assert FullFrom(b, r) == {};
    }
  }

  /** What clearing does to a board, row by row: every row that is not full comes down by as many
      rows as are full below it, and the top is blank. */
  ghost predicate Collapses(b: Board, b': Board) {
    |b'| == |b| && (forall r :: 0 <= r < |FullFrom(b, 0)| ==> r < |b'| && b'[r] == Blank()) &&
    forall r: nat :: r < |b| && !Full(b[r]) ==> r + |FullFrom(b, r)| < |b'| && b'[r + |FullFrom(b, r)|] == b[r]
  }

  /** Counted from the end, a row that is kept stays where it is among those kept. */
  lemma {:induction false} KeptAt(rows: seq<Row>, r: nat)
    requires r < |rows| && !Full(rows[r])
    ensures |Kept(rows[r..])| <= |Kept(rows)| && |Kept(rows[r..])| > 0
    ensures Kept(rows)[|Kept(rows)| - |Kept(rows[r..])|] == rows[r]
    decreases r
  {
    if r == 0 {
      assert rows[0..] == rows;
    } else {
      KeptAt(rows[1..], r - 1);
      assert rows[1..][r - 1..] == rows[r..];
    }
  }

  lemma ClearedCollapses(b: Board)
    ensures Collapses(b, Cleared(b))
  {
    BlanksAre(Fulls(b));
    KeptCount(b);
    FullsCount(b, 0);
    assert b[0..] == b;
    forall r: nat | r < |b| && !Full(b[r])
      ensures r + |FullFrom(b, r)| < |b| && Cleared(b)[r + |FullFrom(b, r)|] == b[r]
    {
      KeptAt(b, r);
      KeptCount(b[r..]);
      FullsCount(b, r);
    }
  }

  /** A board without full rows is left as it is. */
  lemma {:induction false} NothingToClear(b: Board)
    requires NoFullRow(b)
    ensures Fulls(b) == 0 && Kept(b) == b
  {
    if |b| > 0 {
      assert forall r :: 0 <= r < |b[1..]| ==> b[1..][r] == b[r + 1];
      NothingToClear(b[1..]);
      assert !Full(b[0]);
    }
  }

  /** Writing in one row makes at most one more row full. */
  lemma {:induction false} FullsUpdate(b: Board, r: nat, row: Row)
    requires r < |b|
    ensures Fulls(b[r := row]) <= Fulls(b) + 1
  {
    if r == 0 {
      assert b[0 := row][1..] == b[1..];
    } else {
      FullsUpdate(b[1..], r - 1, row);
      assert b[r := row][1..] == b[1..][r - 1 := row];
    }
  }

  // ---------------------------------------------------------------- garbage

  function GarbageRow(hole: nat): Row
    requires hole < COLS
  {
    [9, 9, 9, 9, 9, 9, 9, 9, 9, 9][hole := 0]
  }

  function GarbageRows(n: nat, hole: nat): seq<Row>
    requires hole < COLS
  {
    if n == 0 then [] else [GarbageRow(hole)] + GarbageRows(n - 1, hole)
  }

  lemma {:induction false} GarbageAre(n: nat, hole: nat)
    requires hole < COLS
    ensures |GarbageRows(n, hole)| == n
    ensures forall r :: 0 <= r < n ==> GarbageRows(n, hole)[r] == GarbageRow(hole)
  {
    if n > 0 {
      GarbageAre(n - 1, hole);
    }
  }

  /** The board pushed up by n garbage rows that share one hole; the top n rows are lost. */
  function Raised(b: Board, n: nat, hole: nat): Board
    requires Shaped(b) && n <= ROWS && hole < COLS
  {
    b[n..] + GarbageRows(n, hole)
  }

  lemma RaisedIsShaped(b: Board, n: nat, hole: nat)
    requires Shaped(b) && n <= ROWS && hole < COLS
    ensures Shaped(Raised(b, n, hole))
    ensures forall r :: 0 <= r < ROWS ==>
              Raised(b, n, hole)[r] == if r < ROWS - n then b[r + n] else GarbageRow(hole)
  {
    GarbageAre(n, hole);
  }

  // ---------------------------------------------------------------- the grid

  class SimGrid {
    const grid: array2<int>
    ghost var rows: Board

    ghost predicate Valid()
      reads this, grid
    {
      grid.Length0 == ROWS && grid.Length1 == COLS && Shaped(rows) &&
      forall r, c :: 0 <= r < ROWS && 0 <= c < COLS ==> grid[r, c] == rows[r][c]
    }

    constructor ()
      ensures Valid() && fresh(grid) && rows == Blanks(ROWS)
    {
      grid := new int[ROWS, COLS]((r, c) => 0);
      rows := Blanks(ROWS);
      BlanksAre(ROWS);
      assert forall c :: 0 <= c < COLS ==> Blank()[c] == 0;
    }

    /** A copy with cells of its own. */
    constructor Copy(other: SimGrid)
      requires other.Valid()
      ensures Valid() && fresh(grid) && rows == other.rows
    {
      var source := other.grid;
      grid := new int[ROWS, COLS]((r, c) reads source =>
        if 0 <= r < source.Length0 && 0 <= c < source.Length1 then source[r, c] else 0);
      rows := other.rows;
    }

    predicate IsCellEmpty(r: int, c: int)
      requires Valid()
      reads this, grid
      ensures IsCellEmpty(r, c) == CellEmpty(rows, r, c)
    {
      !CellOutside(r, c) && (grid[r, c] == 0 || grid[r, c] == 8)
    }

    method Set(r: nat, c: nat, v: int)
      requires Valid() && r < ROWS && c < COLS
      modifies this, grid
      ensures Valid() && rows == Put(old(rows), r, c, v)
    {
      grid[r, c] := v;
      rows := Put(rows, r, c, v);
    }

    method IsRowFull(row: nat) returns (full: bool)
      requires Valid() && row < ROWS
      ensures full == Full(rows[row])
    {
      for c := 0 to COLS
        invariant forall i :: 0 <= i < c ==> rows[row][i] != 0
      {
        if grid[row, c] == 0 {
          assert rows[row][c] == 0;
          return false;
        }
      }
      full := true;
    }

    method ClearRow(row: nat)
      requires Valid() && row < ROWS
      modifies this, grid
      ensures Valid() && rows == old(rows)[row := Blank()]
    {
      ghost var was := rows;
      for c := 0 to COLS
        invariant Valid() && rows == was[row := rows[row]]
        invariant forall i :: 0 <= i < c ==> rows[row][i] == 0
      {
        Set(row, c, 0);
      }
      assert rows[row] == Blank();
    }

    /** The row moves down by n, leaving a blank row behind. */
    method MoveRowDown(row: nat, n: nat)
      requires Valid() && n > 0 && row + n < ROWS
      modifies this, grid
      ensures Valid() && rows == old(rows)[row + n := old(rows)[row]][row := Blank()]
    {
      ghost var was := rows;
      var to := row + n;
      for c := 0 to COLS
        invariant Valid() && rows == was[to := rows[to]][row := rows[row]]
        invariant forall i :: 0 <= i < c ==> rows[to][i] == was[row][i] && rows[row][i] == 0
        invariant forall i :: c <= i < COLS ==> rows[row][i] == was[row][i]
      {
        Set(to, c, grid[row, c]);
        Set(row, c, 0);
      }
      assert rows[to] == was[row] && rows[row] == Blank();
    }

    /** From the bottom up, full rows are blanked and the others moved down past them: in the
        end the full rows are gone, the rest kept in order, and blank rows are on top. */
    method ClearFullRows() returns (completed: nat)
      requires Valid()
      modifies this, grid
      ensures Valid() && rows == Cleared(old(rows)) && completed == Fulls(old(rows))
    {
      ghost var was := rows;
      completed := 0;
      var row: nat := ROWS;
      assert was[ROWS..] == [] && was[..ROWS] == was;
      while row > 0
        invariant row <= ROWS && Valid() && completed == Fulls(was[row..])
        invariant rows == Half(was, row)
      {
        ghost var below := row;
        row := row - 1;
        SplitRow(was, row, below);
        KeptCount(was[below..]);
        var full := IsRowFull(row);
        if full {
          ClearRow(row);
          HalfFull(was, row, below);
          completed := completed + 1;
        } else if completed > 0 {
          MoveRowDown(row, completed);
          HalfKept(was, row, below);
        } else {
          HalfKept(was, row, below);
        }
      }
      assert was[0..] == was;
    }

    /** InsertGarbage's in-place part: rows shift up, n garbage rows come in at the bottom. */
    method RaiseGarbage(n: nat, hole: nat)
      requires Valid() && 0 < n <= ROWS && hole < COLS
      modifies this, grid
      ensures Valid() && rows == Raised(old(rows), n, hole)
    {
      ghost var was := rows;
      var r := 0;
      while r + n < ROWS
        invariant r <= ROWS - n && Valid()
        invariant forall i :: 0 <= i < r ==> rows[i] == was[i + n]
        invariant forall i :: r <= i < ROWS ==> rows[i] == was[i]
      {
        CopyRow(r, r + n);
        r := r + 1;
      }
      var g := ROWS;
      while g > ROWS - n
        invariant ROWS - n <= g <= ROWS && Valid()
        invariant forall i :: 0 <= i < ROWS - n ==> rows[i] == was[i + n]
        invariant forall i :: g <= i < ROWS ==> rows[i] == GarbageRow(hole)
      {
        g := g - 1;
        FillGarbage(g, hole);
      }
      RaisedIsShaped(was, n, hole);
      assert rows == Raised(was, n, hole);
    }

    method CopyRow(to: nat, from: nat)
      requires Valid() && to < ROWS && from < ROWS && to != from
      modifies this, grid
      ensures Valid() && rows == old(rows)[to := old(rows)[from]]
    {
      ghost var was := rows;
      for c := 0 to COLS
        invariant Valid() && rows == was[to := rows[to]]
        invariant forall i :: 0 <= i < c ==> rows[to][i] == was[from][i]
      {
        Set(to, c, grid[from, c]);
      }
      assert rows[to] == was[from];
    }

    method FillGarbage(row: nat, hole: nat)
      requires Valid() && row < ROWS && hole < COLS
      modifies this, grid
      ensures Valid() && rows == old(rows)[row := GarbageRow(hole)]
    {
      ghost var was := rows;
      for c := 0 to COLS
        invariant Valid() && rows == was[row := rows[row]]
        invariant forall i :: 0 <= i < c ==> rows[row][i] == GarbageRow(hole)[i]
      {
        Set(row, c, if c == hole then 0 else 9);
      }
      assert rows[row] == GarbageRow(hole);
    }
  }

  // ---------------------------------------------------------------- half-way through clearing

  /** The board once the rows from row on have been dealt with. */
  ghost function Half(was: Board, row: nat): Board
    requires row <= |was|
  {
    was[..row] + Blanks(Fulls(was[row..])) + Kept(was[row..])
  }

  lemma SplitRow(was: Board, row: nat, below: nat)
    requires below == row + 1 && below <= |was|
    ensures was[row..] == [was[row]] + was[below..] && was[..below] == was[..row] + [was[row]]
    ensures was[row..][1..] == was[below..]
    ensures Half(was, below) == was[..row] + ([was[row]] + Blanks(Fulls(was[below..])) + Kept(was[below..]))
    ensures |Half(was, below)| == |was| && Half(was, below)[row] == was[row]
  {
    KeptCount(was[below..]);
    BlanksAre(Fulls(was[below..]));
  }

  /** A full row is blanked. */
  lemma HalfFull(was: Board, row: nat, below: nat)
    requires below == row + 1 && below <= |was| && Full(was[row])
    ensures |Half(was, below)| == |was| && Half(was, below)[row := Blank()] == Half(was, row)
  {
    SplitRow(was, row, below);
    var n, k := Fulls(was[below..]), Kept(was[below..]);
    HalfAtFull(was, row, below);
    BlankedAt(was[..row], row, was[row], Blanks(n), k);
  }

  lemma HalfAtFull(was: Board, row: nat, below: nat)
    requires below == row + 1 && below <= |was| && Full(was[row]) && was[row..][1..] == was[below..]
    ensures Half(was, row) == was[..row] + ([Blank()] + Blanks(Fulls(was[below..]))) + Kept(was[below..])
  {
    assert was[row..][0] == was[row];
    assert [] + Kept(was[below..]) == Kept(was[below..]);
  }

  lemma BlankedAt(a: seq<Row>, i: nat, x: Row, b: seq<Row>, c: seq<Row>)
    requires i == |a|
    ensures (a + ([x] + b + c))[i := Blank()] == a + ([Blank()] + b) + c
  {}

  /** A row that stays swaps places with the blank rows below it. */
  lemma HalfKept(was: Board, row: nat, below: nat)
    requires below == row + 1 && below <= |was| && !Full(was[row])
    ensures var n := Fulls(was[below..]);
            |Half(was, below)| == |was| && row + n < |was| &&
            (if n == 0 then Half(was, below) else Half(was, below)[row + n := was[row]][row := Blank()]) ==
            Half(was, row)
  {
    SplitRow(was, row, below);
    KeptCount(was[below..]);
    var n := Fulls(was[below..]);
    assert Fulls(was[row..]) == n;
    assert Kept(was[row..]) == [was[row]] + Kept(was[below..]);
    BlanksAre(n);
    if n > 0 {
      BlanksLast(n - 1);
      SwapDown(was[..row], was[row], n, Kept(was[below..]));
    }
  }

  lemma SwapDown(a: seq<Row>, x: Row, n: nat, b: seq<Row>)
    requires n > 0 && |Blanks(n)| == n && forall r :: 0 <= r < n ==> Blanks(n)[r] == Blank()
    ensures (a + ([x] + Blanks(n) + b))[|a| + n := x][|a| := Blank()] == a + Blanks(n) + ([x] + b)
  {
    var u, v := (a + ([x] + Blanks(n) + b))[|a| + n := x][|a| := Blank()], a + Blanks(n) + ([x] + b);
    assert |u| == |v|;
    forall i | 0 <= i < |u|
      ensures u[i] == v[i]
    {
      if |a| < i <= |a| + n { assert Blanks(n)[i - |a| - 1] == Blank(); }
    }
  }
}
