/** The small vector vocabulary the core is written against. The repository's geometry
    module is not part of this model: the definitions below are the assumed meaning of
    the names the core uses (see README, "Left out"). */
module Geometry {

  import opened Common

  /** A block position. In the older world layout `y` is the vertical axis; in the
      newer layout (`src/level`, the prefab loader) `z` is. */
  datatype Pos = Pos(x: int, y: int, z: int) {
    function Plus(o: Pos): Pos {
      Pos(x + o.x, y + o.y, z + o.z)
    }
    function Minus(o: Pos): Pos {
      Pos(x - o.x, y - o.y, z - o.z)
    }

    /** `IVec3::rotated` in the newer layout: `turns` quarter turns about the vertical
        `z` axis, from `x` towards `y` (so that it agrees with `HDir::rotated`). */
    function Rotated(turns: int): (r: Pos)
      ensures r.z == z
    {
      var t := turns % 4;
      if t == 0 then this
      else if t == 1 then Pos(-y, x, z)
      else if t == 2 then Pos(-x, -y, z)
      else Pos(y, -x, z)
    }
  }

  /** A horizontal position: (x, z) in the older layout, (x, y) in the newer one. */
  datatype Column = Column(x: int, z: int)

  datatype ChunkIndex = ChunkIndex(x: int, z: int)

  /** The chunk holding a column: floor division by 16 (Dafny's `/` on a positive
      divisor rounds down). */
  function ChunkOf(c: Column): ChunkIndex {
    ChunkIndex(c.x / 16, c.z / 16)
  }

  function ColumnOf(p: Pos): Column {
    Column(p.x, p.z)
  }

  datatype Axis = X | Y | Z {
    function ToStr(): string {
      match this
      case X => "x"
      case Y => "y"
      case Z => "z"
    }
  }

  /** `Axis::from_str`. */
  function AxisFromStr(s: string): (r: Option<Axis>)
    ensures r.Some? ==> r.value.ToStr() == s
  {
    if s == "x" then Some(Axis.X)
    else if s == "y" then Some(Axis.Y)
    else if s == "z" then Some(Axis.Z)
    else None
  }

  datatype HAxis = X | Y

  /** A horizontal direction; its ordinal is its position in the declaration. */
  datatype HDir = XPos | YPos | XNeg | YNeg {
    function Ordinal(): (n: nat)
      ensures n < 4
    {
      match this
      case XPos => 0
      case YPos => 1
      case XNeg => 2
      case YNeg => 3
    }

    /** Quarter turns (any integer, negative turns go the other way). */
    function Rotated(turns: int): (d: HDir)
      ensures d.Ordinal() == (Ordinal() + turns) % 4
    {
      FromOrdinal((Ordinal() + turns) % 4)
    }

    /** The block-state name of the direction. */
    function ToStr(): string {
      match this
      case XPos => "east"
      case XNeg => "west"
      case YPos => "south"
      case YNeg => "north"
    }
  }

  function FromOrdinal(n: nat): (d: HDir)
    requires n < 4
    ensures d.Ordinal() == n
  {
    if n == 0 then XPos else if n == 1 then YPos else if n == 2 then XNeg else YNeg
  }

  /** `HDir::from_str`: the inverse of `ToStr`. */
  function HDirFromStr(s: string): (r: Option<HDir>)
    ensures r.Some? ==> r.value.ToStr() == s
  {
    if s == "east" then Some(XPos)
    else if s == "west" then Some(XNeg)
    else if s == "south" then Some(YPos)
    else if s == "north" then Some(YNeg)
    else None
  }

  lemma HDirStrRoundTrip(d: HDir)
    ensures HDirFromStr(d.ToStr()) == Some(d)
  {
  }

  /** Rotating by `a` then by `b` is rotating by `a + b`. */
  lemma RotatedTwice(d: HDir, a: int, b: int)
    ensures d.Rotated(a).Rotated(b) == d.Rotated(a + b)
  {
    var n := d.Ordinal();
    var q := (n + a) / 4;
    assert (n + a) % 4 + b == (n + a + b) + 4 * -q;
    QuarterShift(n + a + b, -q);
  }

  /** Adding whole turns does not change the quarter. */
  lemma QuarterShift(x: int, k: int)
    ensures (x + 4 * k) % 4 == x % 4
  {
  }

  /** The unit step of a horizontal direction in the newer layout. */
  function Step(d: HDir): Pos {
    match d
    case XPos => Pos(1, 0, 0)
    case YPos => Pos(0, 1, 0)
    case XNeg => Pos(-1, 0, 0)
    case YNeg => Pos(0, -1, 0)
  }

  /** Rotating a vector and rotating a direction agree: the step of the turned
      direction is the turned step. */
  lemma StepRotated(d: HDir, turns: int)
    ensures Step(d).Rotated(turns) == Step(d.Rotated(turns))
  {
    var t := turns % 4;
    assert (d.Ordinal() + turns) % 4 == (d.Ordinal() + t) % 4;
  }

  /** Rotation by a whole number of quarter turns is one-to-one, and turning back
      undoes it. */
  lemma PosRotatedInverse(p: Pos, turns: int)
    ensures p.Rotated(turns).Rotated(-turns) == p
  {
    assert (-turns) % 4 == (4 - turns % 4) % 4;
  }

  /** An axis-aligned rectangle of columns, both corners inclusive. */
  datatype Rect = Rect(min: Column, max: Column) {
    predicate Contains(c: Column) {
      min.x <= c.x <= max.x && min.z <= c.z <= max.z
    }

    /** Moves every side `m` columns inwards. */
    function Shrink(m: int): Rect {
      Rect(Column(min.x + m, min.z + m), Column(max.x - m, max.z - m))
    }
  }

  /** An axis-aligned box of positions, both corners inclusive. */
  datatype Cuboid = Cuboid(min: Pos, max: Pos) {
    predicate Contains(p: Pos) {
      min.x <= p.x <= max.x && min.y <= p.y <= max.y && min.z <= p.z <= max.z
    }

    /** The smallest box holding this one and `p`. */
    function ExtendTo(p: Pos): (c: Cuboid)
      ensures c.Contains(p)
      ensures forall q :: Contains(q) ==> c.Contains(q)
    {
      Cuboid(Pos(Min(min.x, p.x), Min(min.y, p.y), Min(min.z, p.z)),
             Pos(Max(max.x, p.x), Max(max.y, p.y), Max(max.z, p.z)))
    }
  }

  function Min(a: int, b: int): int {
    if a <= b then a else b
  }

  function Max(a: int, b: int): int {
    if a <= b then b else a
  }
}
