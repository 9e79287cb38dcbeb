/** src/sim_block.h, src/sim_blocks.h: the seven pieces.  A piece is copied freely, so it is a
    value; moving or rotating it gives a new one. */
module SimBlock {
  const ROTATIONS: nat := 4

  datatype Position = Position(row: int, col: int)

  datatype Block = Block(id: nat, rot: nat, row: int, col: int) {
    predicate Valid() { 1 <= id <= 7 && rot < ROTATIONS }

    function Moved(rows: int, cols: int): Block { this.(row := row + rows, col := col + cols) }

    function Rotated(): Block { this.(rot := if rot + 1 == ROTATIONS then 0 else rot + 1) }

    function RotationUndone(): Block { this.(rot := if rot == 0 then ROTATIONS - 1 else rot - 1) }

    function Tiles(): seq<Position> {
      Offset(Shape(id, rot), row, col)
    }
  }

  function Offset(ps: seq<Position>, row: int, col: int): seq<Position> {
    if |ps| == 0 then [] else [Position(ps[0].row + row, ps[0].col + col)] + Offset(ps[1..], row, col)
  }

  /** A new piece at the top of the board. */
  function Spawn(id: nat): Block { Block(id, 0, 0, if id == 4 then 4 else 3) }

  /** Every piece once, in the order the random draw indexes them. */
  function AllBlocks(): seq<nat> { [3, 2, 1, 4, 5, 6, 7] }

  function Four(r0: int, c0: int, r1: int, c1: int, r2: int, c2: int, r3: int, c3: int): seq<Position> {
    [Position(r0, c0), Position(r1, c1), Position(r2, c2), Position(r3, c3)]
  }

  function Shape(id: nat, rot: nat): seq<Position> {
    match id
    case 1 => ShapeL(rot)
    case 2 => ShapeJ(rot)
    case 3 => ShapeI(rot)
    case 4 => Four(0, 0, 0, 1, 1, 0, 1, 1)
    case 5 => ShapeS(rot)
    case 6 => ShapeT(rot)
    case _ => ShapeZ(rot)
  }

  function ShapeL(rot: nat): seq<Position> {
    match rot
    case 0 => Four(0, 2, 1, 0, 1, 1, 1, 2)
    case 1 => Four(0, 1, 1, 1, 2, 1, 2, 2)
    case 2 => Four(1, 0, 1, 1, 1, 2, 2, 0)
    case _ => Four(0, 0, 0, 1, 1, 1, 2, 1)
  }

  function ShapeJ(rot: nat): seq<Position> {
    match rot
    case 0 => Four(0, 0, 1, 0, 1, 1, 1, 2)
    case 1 => Four(0, 1, 0, 2, 1, 1, 2, 1)
    case 2 => Four(1, 0, 1, 1, 1, 2, 2, 2)
    case _ => Four(0, 1, 1, 1, 2, 0, 2, 1)
  }

  function ShapeI(rot: nat): seq<Position> {
    match rot
    case 0 => Four(1, 0, 1, 1, 1, 2, 1, 3)
    case 1 => Four(0, 2, 1, 2, 2, 2, 3, 2)
    case 2 => Four(2, 0, 2, 1, 2, 2, 2, 3)
    case _ => Four(0, 1, 1, 1, 2, 1, 3, 1)
  }

  function ShapeS(rot: nat): seq<Position> {
    match rot
    case 0 => Four(0, 1, 0, 2, 1, 0, 1, 1)
    case 1 => Four(0, 1, 1, 1, 1, 2, 2, 2)
    case 2 => Four(1, 1, 1, 2, 2, 0, 2, 1)
    case _ => Four(0, 0, 1, 0, 1, 1, 2, 1)
  }

  function ShapeT(rot: nat): seq<Position> {
    match rot
    case 0 => Four(0, 1, 1, 0, 1, 1, 1, 2)
    case 1 => Four(0, 1, 1, 1, 1, 2, 2, 1)
    case 2 => Four(1, 0, 1, 1, 1, 2, 2, 1)
    case _ => Four(0, 1, 1, 0, 1, 1, 2, 1)
  }

  function ShapeZ(rot: nat): seq<Position> {
    match rot
    case 0 => Four(0, 0, 0, 1, 1, 1, 1, 2)
    case 1 => Four(0, 2, 1, 1, 1, 2, 2, 1)
    case 2 => Four(1, 0, 1, 1, 2, 1, 2, 2)
    case _ => Four(0, 1, 1, 0, 1, 1, 2, 0)
  }

  /** Every rotation has four different cells inside a 4 x 4 box. */
  lemma ShapeIsFour(id: nat, rot: nat)
    ensures |Shape(id, rot)| == 4
    ensures forall i :: 0 <= i < 4 ==> 0 <= Shape(id, rot)[i].row < 4 && 0 <= Shape(id, rot)[i].col < 4
    ensures forall i, j :: 0 <= i < j < 4 ==> Shape(id, rot)[i] != Shape(id, rot)[j]
  {}

  lemma {:induction false} OffsetAt(ps: seq<Position>, row: int, col: int)
    ensures |Offset(ps, row, col)| == |ps|
    ensures forall i :: 0 <= i < |ps| ==> Offset(ps, row, col)[i] == Position(ps[i].row + row, ps[i].col + col)
  {
    if |ps| > 0 {
      OffsetAt(ps[1..], row, col);
      assert forall i :: 1 <= i < |ps| ==> ps[i] == ps[1..][i - 1];
    }
  }

  lemma TilesAreFour(b: Block)
    ensures |b.Tiles()| == 4
    ensures forall i :: 0 <= i < 4 ==> b.row <= b.Tiles()[i].row < b.row + 4 && b.col <= b.Tiles()[i].col < b.col + 4
    ensures forall i, j :: 0 <= i < j < 4 ==> b.Tiles()[i] != b.Tiles()[j]
  {
    ShapeIsFour(b.id, b.rot);
    OffsetAt(Shape(b.id, b.rot), b.row, b.col);
  }
}
