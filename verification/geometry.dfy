/** World positions and facing directions, as far as the auto switch uses them:
    a block position, the six facings, `getOpposite` and `relative`. */
module Geometry {

  /** A block position in world space. */
  datatype Pos = Pos(x: int, y: int, z: int)

  /** The six block facings. */
  datatype Direction = Down | Up | North | South | West | East

  /** The facing pointing the other way. */
  function Opposite(d: Direction): (r: Direction)
    ensures r != d
  {
    match d
    case Down => Up
    case Up => Down
    case North => South
    case South => North
    case West => East
    case East => West
  }

  /** The position one step from `p` towards `d` (the host's `relative`).
      Down/Up move along y, North/South along z, West/East along x. */
  function Relative(p: Pos, d: Direction): Pos
  {
    match d
    case Down => p.(y := p.y - 1)
    case Up => p.(y := p.y + 1)
    case North => p.(z := p.z - 1)
    case South => p.(z := p.z + 1)
    case West => p.(x := p.x - 1)
    case East => p.(x := p.x + 1)
  }

  /** Manhattan distance between two positions. */
  function Distance(a: Pos, b: Pos): nat
  {
    Abs(a.x - b.x) + Abs(a.y - b.y) + Abs(a.z - b.z)
  }

  function Abs(n: int): nat
  {
    if n < 0 then -n else n
  }

  /** The position behind a switch that faces `facing`: the block it is
      mounted on, `pos.relative(facing.getOpposite())`. */
  function Behind(pos: Pos, facing: Direction): (r: Pos)
    ensures Distance(pos, r) == 1
    ensures Relative(r, facing) == pos
  {
    Relative(pos, Opposite(facing))
  }
}
