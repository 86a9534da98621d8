/**
  Grid geometry of the streamer: world positions, the integer cell a
  position falls in, the spawn point of a cell and the 3x3 neighbourhood
  that is kept resident around the observer's cell.
  World coordinates are modelled as exact reals (see README, "Left out").
 */
module SpatialHash {

  /** A world position; only x and z take part in the partition. */
  datatype Vector3 = Vector3(x: real, y: real, z: real)

  /** SpatialCell: an integer grid coordinate, equal iff both components are. */
  datatype Cell = Cell(x: int, z: int)

  /** The cell of a coordinate `v`: the k with k*s <= v < (k+1)*s (a floor, not a truncation). */
  function CellCoord(v: real, cellSize: int): (k: int)
    requires cellSize > 0
    ensures (k * cellSize) as real <= v < ((k + 1) * cellSize) as real
  {
    var q := v / cellSize as real;
    var k := q.Floor;
    assert k as real <= q < k as real + 1.0;
    MulBounds(k, q, cellSize);
    k
  }

  /** Multiplying the floor bounds of q = v / s by s > 0. */
  lemma MulBounds(k: int, q: real, s: int)
    requires s > 0
    requires k as real <= q < k as real + 1.0
    ensures (k * s) as real <= q * s as real < ((k + 1) * s) as real
  {
    MulLowerBound(k, q, s);
    MulUpperBound(k, q, s);
  }

  lemma MulLowerBound(k: int, q: real, s: int)
    requires s > 0 && k as real <= q
    ensures (k * s) as real <= q * s as real
  {
    MulMonoLe(k as real, q, s as real);
    CastMul(k, s);
  }

  lemma MulUpperBound(k: int, q: real, s: int)
    requires s > 0 && q < (k + 1) as real
    ensures q * s as real < ((k + 1) * s) as real
  {
    MulMonoLt(q, (k + 1) as real, s as real);
    CastMul(k + 1, s);
  }

  /** Casting a product of integers to real multiplies the casts. */
  lemma CastMul(a: int, b: int)
    ensures (a * b) as real == a as real * b as real
  {
  }

  lemma MulMonoLe(a: real, b: real, c: real)
    requires a <= b && c > 0.0
    ensures a * c <= b * c
  {
    assert b * c - a * c == (b - a) * c;
  }

  lemma MulMonoLt(a: real, b: real, c: real)
    requires a < b && c > 0.0
    ensures a * c < b * c
  {
    assert b * c - a * c == (b - a) * c;
  }

  /** A strict inequality between multiples of s > 0 is one between the factors. */
  lemma MulCancelLt(a: int, b: int, s: int)
    requires s > 0 && a * s < b * s
    ensures a < b
  {
    assert (b - a) * s == b * s - a * s;
  }

  /** SpatialCell.FromVector3: the cell containing the horizontal position of `p`. */
  function FromVector3(p: Vector3, cellSize: int): (c: Cell)
    requires cellSize > 0
    ensures (c.x * cellSize) as real <= p.x < ((c.x + 1) * cellSize) as real
    ensures (c.z * cellSize) as real <= p.z < ((c.z + 1) * cellSize) as real
  {
    Cell(CellCoord(p.x, cellSize), CellCoord(p.z, cellSize))
  }

  /** Only one integer satisfies the bounds of CellCoord, so they determine the cell. */
  lemma CellCoordUnique(v: real, cellSize: int, k: int)
    requires cellSize > 0
    requires (k * cellSize) as real <= v < ((k + 1) * cellSize) as real
    ensures CellCoord(v, cellSize) == k
  {
    var j := CellCoord(v, cellSize);
    MulCancelLt(k, j + 1, cellSize);
    MulCancelLt(j, k + 1, cellSize);
  }

  /** Spawn point of a cell, its geometric centre at ground height. */
  function SpawnPosition(c: Cell, cellSize: int): Vector3
  {
    Vector3((c.x * cellSize) as real + cellSize as real * 0.5, 0.0,
            (c.z * cellSize) as real + cellSize as real * 0.5)
  }

  /** A load started for cell `c` spawns its content inside `c`. */
  lemma SpawnPositionInCell(c: Cell, cellSize: int)
    requires cellSize > 0
    ensures FromVector3(SpawnPosition(c, cellSize), cellSize) == c
  {
    var p := SpawnPosition(c, cellSize);
    assert ((c.x + 1) * cellSize) as real == (c.x * cellSize) as real + cellSize as real;
    assert ((c.z + 1) * cellSize) as real == (c.z * cellSize) as real + cellSize as real;
    CellCoordUnique(p.x, cellSize, c.x);
    CellCoordUnique(p.z, cellSize, c.z);
  }

  /** Negative coordinates floor: x = -0.1 with cell size 10 lies in column -1, not 0. */
  lemma NegativePositionFloors()
    ensures FromVector3(Vector3(-0.1, 0.0, 0.0), 10) == Cell(-1, 0)
  {
    CellCoordUnique(-0.1, 10, -1);
    CellCoordUnique(0.0, 10, 0);
  }

  function AbsInt(n: int): nat { if n < 0 then -n else n }

  /** Chebyshev (king-move) distance between two cells. */
  function Chebyshev(a: Cell, b: Cell): nat
  {
    var dx := AbsInt(a.x - b.x);
    var dz := AbsInt(a.z - b.z);
    if dx < dz then dz else dx
  }

  /** The cell at offset (dx, dz) from `center`. */
  function Offset(center: Cell, dx: int, dz: int): Cell
  {
    Cell(center.x + dx, center.z + dz)
  }

  /** The 3x3 block around `center`: exactly the cells within Chebyshev distance 1. */
  function Neighborhood(center: Cell): (r: set<Cell>)
    ensures forall c :: c in r <==> Chebyshev(c, center) <= 1
  {
    var r := set dx: int, dz: int | -1 <= dx <= 1 && -1 <= dz <= 1 :: Offset(center, dx, dz);
    assert forall c | Chebyshev(c, center) <= 1 :: c == Offset(center, c.x - center.x, c.z - center.z);
    r
  }

  /** One row of the block: the three cells at height offset dz. */
  function Row(center: Cell, dz: int): set<Cell>
  {
    {Offset(center, -1, dz), Offset(center, 0, dz), Offset(center, 1, dz)}
  }

  /** The block holds nine distinct cells. */
  lemma NeighborhoodHasNineCells(center: Cell)
    ensures |Neighborhood(center)| == 9
  {
    var a, b, c := Row(center, -1), Row(center, 0), Row(center, 1);
    assert |a| == 3 && |b| == 3 && |c| == 3;
    assert a !! b && (a + b) !! c;
    assert |a + b| == 6;
    assert Neighborhood(center) == a + b + c;
  }

  /** The block shape is symmetric: c is near d exactly when d is near c. */
  lemma NeighborhoodSymmetric(c: Cell, d: Cell)
    ensures c in Neighborhood(d) <==> d in Neighborhood(c)
  {
  }
}
