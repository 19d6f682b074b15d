/**
  * The arena the car drives in: a set of wall cells on an integer grid, and the
  * unit-step ray search that measures how far a wall is in a given direction.
  */
module Arena {

  /** A grid cell, (x, y). */
  type Cell = (int, int)

  /** The car's position; the simulation keeps it in floating point. */
  datatype Position = Position(x: real, y: real)

  /** Rays are sampled at steps 1 .. MaxRay - 1; a ray that hits nothing reports MaxRay. */
  const MaxRay: int := 200

  /**
    * The cell a ray from `pos` at `angle` degrees reaches after `dist` unit
    * steps is the caller's `sample(pos, angle, dist)`; the simulation computes it
    * with cosine, sine and truncation to integers.
    */
  type Sampler = (Position, real, int) -> Cell

  /** The ray's first hit at step `from` or later, or MaxRay when there is none before MaxRay. */
  function FirstHit(sample: Sampler, pos: Position, angle: real, walls: set<Cell>, from: int): int
    decreases MaxRay - from
  {
    if from >= MaxRay then MaxRay
    else if sample(pos, angle, from) in walls then from
    else FirstHit(sample, pos, angle, walls, from + 1)
  }

  /** FirstHit finds the smallest hitting step in [from, MaxRay), and MaxRay only when there is none. */
  lemma {:induction false} FirstHitIsFirst(sample: Sampler, pos: Position, angle: real, walls: set<Cell>, from: int)
    requires from <= MaxRay
    ensures from <= FirstHit(sample, pos, angle, walls, from) <= MaxRay
    ensures FirstHit(sample, pos, angle, walls, from) < MaxRay ==>
              sample(pos, angle, FirstHit(sample, pos, angle, walls, from)) in walls
    ensures forall k :: from <= k < FirstHit(sample, pos, angle, walls, from) ==> sample(pos, angle, k) !in walls
    decreases MaxRay - from
  {
    if from < MaxRay && sample(pos, angle, from) !in walls {
      FirstHitIsFirst(sample, pos, angle, walls, from + 1);
    }
  }

  /** More walls never make a ray longer. */
  lemma {:induction false} MoreWallsShorterRay(sample: Sampler, pos: Position, angle: real, walls: set<Cell>, more: set<Cell>, from: int)
    requires walls <= more
    ensures FirstHit(sample, pos, angle, more, from) <= FirstHit(sample, pos, angle, walls, from)
    decreases MaxRay - from
  {
    if from < MaxRay && sample(pos, angle, from) !in more {
      MoreWallsShorterRay(sample, pos, angle, walls, more, from + 1);
    } else if from < MaxRay {
      FirstHitIsFirst(sample, pos, angle, walls, from);
    }
  }

  /**
    * The distance to the first wall along the ray: the first step in 1 .. 199
    * whose sampled cell is a wall, or 200 when none of them is.
    */
  method DistanceToWall(pos: Position, angle: real, walls: set<Cell>, sample: Sampler) returns (dist: int)
    ensures 1 <= dist <= MaxRay
    ensures dist < MaxRay ==> sample(pos, angle, dist) in walls
    ensures forall k :: 1 <= k < dist ==> sample(pos, angle, k) !in walls
    ensures dist == FirstHit(sample, pos, angle, walls, 1)
  {
    for d := 1 to MaxRay
      invariant forall k :: 1 <= k < d ==> sample(pos, angle, k) !in walls
      invariant FirstHit(sample, pos, angle, walls, 1) == FirstHit(sample, pos, angle, walls, d)
    {
      if sample(pos, angle, d) in walls {
        return d;
      }
    }
    return MaxRay;
  }

  /** The cells of a rectangle's border: its top and bottom rows and its left and right columns. */
  predicate OnBorder(width: int, height: int, c: Cell)
  {
    (0 <= c.0 < width && (c.1 == 0 || c.1 == height - 1)) ||
    (0 <= c.1 < height && (c.0 == 0 || c.0 == width - 1))
  }

  /**
    * The wall set of a `width` by `height` arena: exactly its border cells.
    * The simulation builds it for its 800 by 600 window.
    */
  method BorderWalls(width: nat, height: nat) returns (walls: set<Cell>)
    ensures forall c :: c in walls <==> OnBorder(width, height, c)
  {
    walls := {};
    for x := 0 to width
      invariant forall c :: c in walls <==> 0 <= c.0 < x && (c.1 == 0 || c.1 == height - 1)
    {
      walls := walls + {(x, 0), (x, height - 1)};
    }
    for y := 0 to height
      invariant forall c :: c in walls <==>
        (0 <= c.0 < width && (c.1 == 0 || c.1 == height - 1)) ||
        (0 <= c.1 < y && (c.0 == 0 || c.0 == width - 1))
    {
      walls := walls + {(0, y), (width - 1, y)};
    }
  }
}
