/** Clearing vegetation from the world (src/remove_foliage.rs): `ground` removes small
    plants just above the surface, `trees` and `tree` fell trees together with the leaves
    that would decay without them, optionally leaving a stump behind. The world is the
    older layout, `y` up. */
module RemoveFoliage {

  import opened Common
  import opened Geometry
  import opened WorldBlock

  const Up := Pos(0, 1, 0)

  /** How far a leaf may be from a log of its tree; every leaf starts at this distance. */
  const DecayDistance: u8 := 6

  /** The world as the foliage code uses it: a block for every position of `bounds`, and a
      ground height and water level for every column. Indexing outside `bounds` panics, as
      indexing the world outside its loaded chunks does. */
  class Terrain {
    var block: Pos -> Block
    const bounds: Cuboid
    const ground: Column -> int
    const water: Column -> Option<int>

    constructor (blocks: Pos -> Block, bounds: Cuboid, ground: Column -> int, water: Column -> Option<int>)
      ensures block == blocks && this.bounds == bounds
      ensures this.ground == ground && this.water == water
    {
      this.block := blocks;
      this.bounds := bounds;
      this.ground := ground;
      this.water := water;
    }

    /** The columns the world holds. */
    predicate Covers(c: Column) {
      bounds.min.x <= c.x <= bounds.max.x && bounds.min.z <= c.z <= bounds.max.z
    }

    /** The positions the world holds. */
    ghost function Domain(): (d: set<Pos>)
      ensures forall p :: p in d <==> bounds.Contains(p)
    {
      set x, y, z | bounds.min.x <= x <= bounds.max.x && bounds.min.y <= y <= bounds.max.y &&
                    bounds.min.z <= z <= bounds.max.z :: Pos(x, y, z)
    }

    /** `world[pos]`. */
    function Get(p: Pos): (r: Result<Block>)
      reads this
      ensures r.Ok? <==> bounds.Contains(p)
      ensures r.Ok? ==> r.value == block(p)
    {
      if bounds.Contains(p) then Ok(block(p)) else Panic("position outside the world")
    }

    /** `world[pos] = b`: only `pos` changes. */
    method Set(p: Pos, b: Block) returns (r: Result<()>)
      modifies this
      ensures r.Ok? <==> bounds.Contains(p)
      ensures forall q :: block(q) == if r.Ok? && q == p then b else old(block)(q)
    {
      if !bounds.Contains(p) {
        return Panic("position outside the world");
      }
      var before := block;
      block := q => if q == p then b else before(q);
      r := Ok(());
    }

    /** `world.height(column)`. */
    function Height(c: Column): (r: Result<int>)
      ensures r.Ok? <==> Covers(c)
      ensures r.Ok? ==> r.value == ground(c)
    {
      if Covers(c) then Ok(ground(c)) else Panic("column outside the world")
    }

    /** `world.water_level(column)`. */
    function WaterLevel(c: Column): (r: Result<Option<int>>)
      ensures r.Ok? <==> Covers(c)
      ensures r.Ok? ==> r.value == water(c)
    {
      if Covers(c) then Ok(water(c)) else Panic("column outside the world")
    }
  }

  function At(c: Column, y: int): Pos {
    Pos(c.x, y, c.z)
  }

  predicate IsLogOf(b: Block, s: TreeSpecies) {
    b.Log? && b.species == s
  }

  // ---------------------------------------------------------------- ground

  /** The level `ground` clears above: the water surface where there is water, else the
      ground height. */
  function Base(t: Terrain, c: Column): int {
    if t.water(c).Some? then t.water(c).value else t.ground(c)
  }

  /** `ground` can clear column `c`: the world holds it, and both cleared heights. */
  predicate ColumnSafe(t: Terrain, c: Column) {
    t.Covers(c) && t.bounds.min.y <= Base(t, c) + 1 && Base(t, c) + 2 <= t.bounds.max.y
  }

  /** The block at `p` once column `c` is cleared: a ground plant one or two blocks above
      the base becomes air. */
  function ClearedAt(before: Pos -> Block, t: Terrain, c: Column, p: Pos): Block {
    if ColumnOf(p) == c && Base(t, c) + 1 <= p.y <= Base(t, c) + 2 && before(p).GroundPlant?
    then Air else before(p)
  }

  /** The block at `p` once every column of `area` is cleared. */
  function Cleared(before: Pos -> Block, t: Terrain, area: Rect, p: Pos): Block {
    if area.Contains(ColumnOf(p)) then ClearedAt(before, t, ColumnOf(p), p) else before(p)
  }

  /** Clearing only ever turns ground plants into air, and only one or two blocks above
      the water level or, without water, the ground. */
  lemma ClearedOnlyPlants(before: Pos -> Block, t: Terrain, area: Rect, p: Pos)
    ensures Cleared(before, t, area, p) != before(p) <==>
      area.Contains(ColumnOf(p)) && before(p).GroundPlant? &&
      Base(t, ColumnOf(p)) + 1 <= p.y <= Base(t, ColumnOf(p)) + 2
    ensures Cleared(before, t, area, p) == before(p) || Cleared(before, t, area, p) == Air
  {
  }

  /** Clearing twice changes nothing more. */
  lemma ClearedIdempotent(before: Pos -> Block, t: Terrain, area: Rect, p: Pos)
    ensures Cleared(q => Cleared(before, t, area, q), t, area, p) == Cleared(before, t, area, p)
  {
  }

  /** One column of `ground`. */
  method ClearColumn(t: Terrain, c: Column) returns (r: Result<()>)
    modifies t
    ensures r.Ok? <==> ColumnSafe(t, c)
    ensures forall p :: t.block(p) == old(t.block)(p) || t.block(p) == ClearedAt(old(t.block), t, c, p)
    ensures r.Ok? ==> forall p :: t.block(p) == ClearedAt(old(t.block), t, c, p)
  {
    var level := t.WaterLevel(c);
    if level.Panic? {
      return Panic(level.reason);
    }
    var base;
    if level.value.Some? {
      base := level.value.value;
    } else {
      var h := t.Height(c);
      base := h.value;
    }
    ghost var before := t.block;
    var y := base + 1;
    while y <= base + 2
      invariant base + 1 <= y <= base + 3
      invariant base == Base(t, c)
      invariant y > base + 1 ==> t.bounds.min.y <= base + 1 && y - 1 <= t.bounds.max.y
      invariant forall p :: t.block(p) == if ColumnOf(p) == c && p.y < y then ClearedAt(before, t, c, p) else before(p)
    {
      var b := t.Get(At(c, y));
      if b.Panic? {
        return Panic(b.reason);
      }
      if b.value.GroundPlant? {
        var _ := t.Set(At(c, y), Air);
      }
      y := y + 1;
    }
    r := Ok(());
  }

  /** `ground`: clears every column of `area`, row by row. */
  method Ground(t: Terrain, area: Rect) returns (r: Result<()>)
    modifies t
    ensures r.Ok? <==> forall c :: area.Contains(c) ==> ColumnSafe(t, c)
    ensures forall p :: t.block(p) == old(t.block)(p) || t.block(p) == Cleared(old(t.block), t, area, p)
    ensures r.Ok? ==> forall p :: t.block(p) == Cleared(old(t.block), t, area, p)
  {
    ghost var before := t.block;
    var x := area.min.x;
    while x <= area.max.x
      invariant area.min.x <= x && (x <= area.max.x + 1 || x == area.min.x)
      invariant forall c :: area.Contains(c) && c.x < x ==> ColumnSafe(t, c)
      invariant forall p :: t.block(p) == if p.x < x then Cleared(before, t, area, p) else before(p)
    {
      var z := area.min.z;
      while z <= area.max.z
        invariant area.min.z <= z && (z <= area.max.z + 1 || z == area.min.z)
        invariant forall c :: area.Contains(c) && (c.x < x || (c.x == x && c.z < z)) ==> ColumnSafe(t, c)
        invariant forall p :: (t.block(p) ==
          (if p.x < x || (p.x == x && p.z < z) then Cleared(before, t, area, p) else before(p)))
      {
        ghost var mid := t.block;
        r := ClearColumn(t, Column(x, z));
        if r.Panic? {
          assert area.Contains(Column(x, z)) && !ColumnSafe(t, Column(x, z));
          forall p ensures t.block(p) == before(p) || t.block(p) == Cleared(before, t, area, p) {
            assert t.block(p) == mid(p) || t.block(p) == ClearedAt(mid, t, Column(x, z), p);
          }
          return;
        }
        z := z + 1;
      }
      x := x + 1;
    }
    r := Ok(());
  }

  // ---------------------------------------------------------------- tree: the stump

  /** The nine positions of the layer of `center` around it (the `x`, `z` loops over -1..=1). */
  predicate RingSpot(center: Pos, p: Pos) {
    p.y == center.y && -1 <= p.x - center.x <= 1 && -1 <= p.z - center.z <= 1
  }

  /** The turn of the `x`-then-`z` loop that visits `p`. */
  function RingOrd(center: Pos, p: Pos): int {
    (p.x - center.x + 1) * 3 + (p.z - center.z + 1)
  }

  function RingAt(center: Pos, k: nat): (p: Pos)
    requires k < 9
    ensures RingSpot(center, p) && RingOrd(center, p) == k
  {
    Pos(center.x + k / 3 - 1, center.y, center.z + k % 3 - 1)
  }

  /** The loop visits each position of the layer once. */
  lemma RingOrdUnique(center: Pos, p: Pos, q: Pos)
    requires RingSpot(center, p) && RingSpot(center, q) && RingOrd(center, p) == RingOrd(center, q)
    ensures p == q
  {
  }

  /** The block at `p` once roots are grown under the layer of `pos`: below each log of
      the tree in that layer the same log appears. */
  function RootOf(before: Pos -> Block, pos: Pos, s: TreeSpecies, p: Pos): Block {
    var above := p.Plus(Up);
    if RingSpot(pos, above) && IsLogOf(before(above), s) then Log(s, before(above).logType) else before(p)
  }

  /** Growing the roots reads the whole layer, and writes below each log of the tree. */
  ghost predicate RootsSafe(t: Terrain, before: Pos -> Block, pos: Pos, s: TreeSpecies) {
    forall p :: RingSpot(pos, p) ==>
      t.bounds.Contains(p) && (IsLogOf(before(p), s) ==> t.bounds.Contains(p.Minus(Up)))
  }

  /** The visible roots `tree` makes when it leaves a stump. */
  method Roots(t: Terrain, pos: Pos, s: TreeSpecies) returns (r: Result<()>)
    modifies t
    ensures r.Ok? <==> RootsSafe(t, old(t.block), pos, s)
    ensures forall p :: t.block(p) == old(t.block)(p) || t.block(p) == RootOf(old(t.block), pos, s, p)
    ensures r.Ok? ==> forall p :: t.block(p) == RootOf(old(t.block), pos, s, p)
  {
    ghost var before := t.block;
    var k := 0;
    while k < 9
      invariant 0 <= k <= 9
      invariant forall p :: RingSpot(pos, p) && RingOrd(pos, p) < k ==>
        t.bounds.Contains(p) && (IsLogOf(before(p), s) ==> t.bounds.Contains(p.Minus(Up)))
      invariant forall p :: (t.block(p) ==
        (if RingSpot(pos, p.Plus(Up)) && RingOrd(pos, p.Plus(Up)) < k then RootOf(before, pos, s, p) else before(p)))
    {
      var p := RingAt(pos, k);
      var b := t.Get(p);
      if b.Panic? {
        return Panic(b.reason);
      }
      if IsLogOf(b.value, s) {
        assert p.Minus(Up).Plus(Up) == p;
        r := t.Set(p.Minus(Up), Log(s, b.value.logType));
        if r.Panic? {
          return;
        }
      }
      forall q | RingSpot(pos, q) && RingOrd(pos, q) == k {
        RingOrdUnique(pos, p, q);
      }
      k := k + 1;
    }
    r := Ok(());
  }

  /** The block at `p` once the trunk is cut at `cut`: the cut itself becomes air, and so
      does every log of the tree around it unless it stands on a log and the draw `keep`
      says to keep it. */
  function CutOf(before: Pos -> Block, cut: Pos, s: TreeSpecies, keep: Pos -> bool, p: Pos): Block {
    if p == cut then Air
    else if RingSpot(cut, p) && IsLogOf(before(p), s) && !(before(p.Minus(Up)).Log? && keep(p)) then Air
    else before(p)
  }

  /** Cutting reads the layer of the cut and the layer below it. */
  ghost predicate CutSafe(t: Terrain, cut: Pos) {
    t.bounds.Contains(cut) &&
    forall p :: RingSpot(cut, p) ==> t.bounds.Contains(p) && t.bounds.Contains(p.Minus(Up))
  }

  /** The cut through the trunk (`world[pos] = Air` and the loop around it). */
  method Cut(t: Terrain, cut: Pos, s: TreeSpecies, keep: Pos -> bool) returns (r: Result<()>)
    modifies t
    ensures r.Ok? <==> CutSafe(t, cut)
    ensures forall p :: t.block(p) == old(t.block)(p) || t.block(p) == CutOf(old(t.block), cut, s, keep, p)
    ensures r.Ok? ==> forall p :: t.block(p) == CutOf(old(t.block), cut, s, keep, p)
  {
    ghost var before := t.block;
    r := t.Set(cut, Air);
    if r.Panic? {
      return;
    }
    var k := 0;
    while k < 9
      invariant 0 <= k <= 9
      invariant forall p :: RingSpot(cut, p) && RingOrd(cut, p) < k ==>
        t.bounds.Contains(p) && t.bounds.Contains(p.Minus(Up))
      invariant forall p :: (t.block(p) ==
        (if p == cut || (RingSpot(cut, p) && RingOrd(cut, p) < k) then CutOf(before, cut, s, keep, p) else before(p)))
    {
      var p := RingAt(cut, k);
      var below := t.Get(p.Minus(Up));
      if below.Panic? {
        return Panic(below.reason);
      }
      var b := t.Get(p);
      if b.Panic? {
        return Panic(b.reason);
      }
      if IsLogOf(b.value, s) {
        if below.value.Log? && keep(p) {
          r := t.Set(p, Log(s, b.value.logType));
        } else {
          r := t.Set(p, Air);
        }
      }
      forall q | RingSpot(cut, q) && RingOrd(cut, q) == k {
        RingOrdUnique(cut, p, q);
      }
      k := k + 1;
    }
    r := Ok(());
  }

  // ---------------------------------------------------------------- tree: the trunk

  /** The neighbourhood the trunk search looks at around `c`: the 3 x 3 x 3 cube, without
      its bottom layer unless a stump is left. `c` itself is part of it. */
  predicate Near(c: Pos, p: Pos, leaveStump: bool) {
    -1 <= p.x - c.x <= 1 && (if leaveStump then -1 else 0) <= p.y - c.y <= 1 && -1 <= p.z - c.z <= 1
  }

  /** The turn of the `x`, `y`, `z` loops that visits `p`. */
  function NearOrd(c: Pos, p: Pos): int {
    (p.x - c.x + 1) * 9 + (p.y - c.y + 1) * 3 + (p.z - c.z + 1)
  }

  function NearAt(c: Pos, k: nat): (p: Pos)
    requires k < 27
    ensures NearOrd(c, p) == k && Near(c, p, true)
  {
    Pos(c.x + k / 9 - 1, c.y + k / 3 % 3 - 1, c.z + k % 3 - 1)
  }

  lemma NearOrdUnique(c: Pos, p: Pos, q: Pos)
    requires Near(c, p, true) && Near(c, q, true) && NearOrd(c, p) == NearOrd(c, q)
    ensures p == q
  {
  }

  /** Every log of the tree within reach of `v` has been found. */
  ghost predicate Explored(w: Pos -> Block, visited: set<Pos>, v: Pos, s: TreeSpecies, leaveStump: bool) {
    forall n :: Near(v, n, leaveStump) && IsLogOf(w(n), s) ==> n in visited
  }

  /** The only change: logs of the tree above the stump become air. */
  ghost predicate Trimmed(before: Pos -> Block, after: Pos -> Block, s: TreeSpecies, stump: int) {
    forall p :: after(p) == before(p) || (IsLogOf(before(p), s) && p.y > stump && after(p) == Air)
  }

  /** Exploring stays true while logs are only removed and more positions are found. */
  lemma ExploredKept(w: Pos -> Block, w': Pos -> Block, visited: set<Pos>, visited': set<Pos>,
                     v: Pos, s: TreeSpecies, stump: int, leaveStump: bool)
    requires Explored(w, visited, v, s, leaveStump) && Trimmed(w, w', s, stump) && visited <= visited'
    ensures Explored(w', visited', v, s, leaveStump)
  {
    forall n | Near(v, n, leaveStump) && IsLogOf(w'(n), s)
      ensures n in visited'
    {
      assert w'(n) == w(n);
    }
  }

  /** The bookkeeping of the search, from `visited`/`stack` to `found`/`queue`: positions
      are only ever added, each newly found one is queued, and the queue only grows by
      them, so that an unchanged set of found positions means an unchanged queue. */
  ghost predicate Queued(visited: set<Pos>, found: set<Pos>, stack: seq<Pos>, queue: seq<Pos>) {
    visited <= found && (queue == stack || visited < found) &&
    (forall q :: q in stack ==> q in queue) &&
    (forall q :: q in queue ==> q in stack || q in found) &&
    (forall q :: q in found && q !in visited ==> q in queue)
  }

  lemma QueuedTrans(v: set<Pos>, f1: set<Pos>, f2: set<Pos>, s: seq<Pos>, q1: seq<Pos>, q2: seq<Pos>)
    requires Queued(v, f1, s, q1) && Queued(f1, f2, q1, q2)
    ensures Queued(v, f2, s, q2)
  {
  }

  /** What the search did to the world between `visited` and `found`: only logs of the
      tree were removed, each at a newly found position, and every newly found position
      above the stump is air. */
  ghost predicate Removed(before: Pos -> Block, after: Pos -> Block, visited: set<Pos>, found: set<Pos>,
                          s: TreeSpecies, stump: int) {
    Trimmed(before, after, s, stump) &&
    (forall q :: after(q) != before(q) ==> q in found && q !in visited) &&
    (forall q :: q in found && q !in visited && q.y > stump ==> after(q) == Air)
  }

  lemma RemovedTrans(w0: Pos -> Block, w1: Pos -> Block, w2: Pos -> Block,
                     v: set<Pos>, f1: set<Pos>, f2: set<Pos>, s: TreeSpecies, stump: int)
    requires v <= f1 <= f2
    requires Removed(w0, w1, v, f1, s, stump) && Removed(w1, w2, f1, f2, s, stump)
    ensures Removed(w0, w2, v, f2, s, stump)
  {
    forall q ensures w2(q) == w0(q) || (IsLogOf(w0(q), s) && q.y > stump && w2(q) == Air) {
      assert w1(q) == w0(q) || (IsLogOf(w0(q), s) && q.y > stump && w1(q) == Air);
      assert w2(q) == w1(q) || (IsLogOf(w1(q), s) && q.y > stump && w2(q) == Air);
    }
  }

  /** The trunk search looking at one position `n`: a log of the tree not found before is
      turned into air above the stump (kept at or below it) and queued. */
  method Visit(t: Terrain, n: Pos, s: TreeSpecies, stump: int, visited: set<Pos>, stack: seq<Pos>)
    returns (r: Result<()>, found: set<Pos>, queue: seq<Pos>)
    modifies t
    ensures r.Ok? <==> t.bounds.Contains(n)
    ensures found - visited <= {n} && found - visited <= t.Domain()
    ensures Queued(visited, found, stack, queue)
    ensures Removed(old(t.block), t.block, visited, found, s, stump)
    ensures r.Ok? && IsLogOf(t.block(n), s) ==> n in found
  {
    found, queue := visited, stack;
    var b := t.Get(n);
    if b.Panic? {
      return Panic(b.reason), found, queue;
    }
    r := Ok(());
    if IsLogOf(b.value, s) && n !in visited {
      var _ := t.Set(n, if n.y <= stump then Log(s, b.value.logType) else Air);
      found := visited + {n};
      queue := stack + [n];
    }
  }

  /** One turn of the trunk search: looks at the neighbourhood of `v`, turns each log of
      the tree found there into air above the stump (keeping it at or below), and queues
      it. Unlike the source, a log already found is not queued again (see `FloodStep`). */
  method Expand(t: Terrain, v: Pos, s: TreeSpecies, leaveStump: bool, stump: int,
                visited: set<Pos>, stack: seq<Pos>)
    returns (r: Result<()>, found: set<Pos>, queue: seq<Pos>)
    modifies t
    ensures found - visited <= t.Domain()
    ensures Queued(visited, found, stack, queue)
    ensures Removed(old(t.block), t.block, visited, found, s, stump)
    ensures r.Ok? ==> Explored(t.block, found, v, s, leaveStump)
  {
    ghost var before := t.block;
    found, queue := visited, stack;
    var k := 0;
    while k < 27
      invariant 0 <= k <= 27
      invariant found - visited <= t.Domain()
      invariant Queued(visited, found, stack, queue)
      invariant Removed(before, t.block, visited, found, s, stump)
      invariant forall n :: Near(v, n, leaveStump) && NearOrd(v, n) < k && IsLogOf(t.block(n), s) ==> n in found
    {
      var n := NearAt(v, k);
      if leaveStump || n.y >= v.y {
        ghost var (mid, found0, queue0) := (t.block, found, queue);
        r, found, queue := Visit(t, n, s, stump, found, queue);
        QueuedTrans(visited, found0, found, stack, queue0, queue);
        RemovedTrans(before, mid, t.block, visited, found0, found, s, stump);
        if r.Panic? {
          return;
        }
      }
      forall q | Near(v, q, true) && NearOrd(v, q) == k {
        NearOrdUnique(v, n, q);
      }
      k := k + 1;
    }
    r := Ok(());
  }

  /** The search for the rest of the trunk from the cut `start`, in its corrected form:
      the logs of the tree reachable from `start` through the neighbourhoods become air
      above the stump (one below `start`) and stay logs at or below it, and each position
      is expanded once. Returns the stem area, grown from `stem` to every expanded
      position. */
  method FloodFill(t: Terrain, start: Pos, s: TreeSpecies, leaveStump: bool, stem: Cuboid)
    returns (r: Result<Cuboid>, ghost visited: set<Pos>)
    modifies t
    ensures Removed(old(t.block), t.block, {start}, visited, s, start.y - 1)
    ensures r.Ok? ==> start in visited && forall p :: stem.Contains(p) ==> r.value.Contains(p)
    ensures r.Ok? ==> forall v :: v in visited ==>
      Explored(t.block, visited, v, s, leaveStump) && r.value.Contains(v)
  {
    var stump := start.y - 1;
    ghost var before := t.block;
    var stack := [start];
    var found := {start};
    var area := stem;
    ghost var done: set<Pos> := {};
    while |stack| > 0
      invariant start in found
      invariant forall q :: q in stack ==> q in found
      invariant forall q :: q in found ==> q in done || q in stack
      invariant forall v :: v in done ==> v in found && area.Contains(v)
      invariant forall v :: v in done ==> Explored(t.block, found, v, s, leaveStump)
      invariant forall p :: stem.Contains(p) ==> area.Contains(p)
      invariant Removed(before, t.block, {start}, found, s, stump)
      decreases t.Domain() - found, |stack|
    {
      var v := stack[|stack| - 1];
      stack := stack[..|stack| - 1];
      area := area.ExtendTo(v);
      done := done + {v};
      ghost var (mid, found0, stack0) := (t.block, found, stack);
      var e;
      e, found, stack := Expand(t, v, s, leaveStump, stump, found, stack);
      RemovedTrans(before, mid, t.block, {start}, found0, found, s, stump);
      forall d | d in done && d != v {
        ExploredKept(mid, t.block, found0, found, d, s, stump, leaveStump);
      }
      if e.Panic? {
        return Panic(e.reason), found;
      }
    }
    return Ok(area), found;
  }

  // ---------------------------------------------------------------- the trunk loop as written

  /** One turn of the source's trunk loop as written, on the world as a function and the
      stack of positions to expand: pop `v`, then for every log of the tree in its
      neighbourhood, in loop order, keep it at or below the stump, make it air above, and
      push it, whether or not it was pushed before. World bounds play no part here. */
  function FloodStep(w: Pos -> Block, stack: seq<Pos>, s: TreeSpecies, leaveStump: bool, stump: int)
    : (Pos -> Block, seq<Pos>)
    requires |stack| > 0
  {
    Scan(w, stack[..|stack| - 1], stack[|stack| - 1], s, leaveStump, stump, 0)
  }

  /** The world once the loop has found the log at `n`: kept at or below the stump, air
      above it. */
  function Keep(w: Pos -> Block, n: Pos, s: TreeSpecies, stump: int): Pos -> Block
    requires w(n).Log?
  {
    q => if q == n then (if n.y <= stump then Log(s, w(n).logType) else Air) else w(q)
  }

  /** Turn `k` of the neighbourhood loop of `FloodStep`: a log of the tree at the `k`-th
      neighbour, not below `v` unless a stump is left, is kept or made air and pushed. */
  function ScanTurn(w: Pos -> Block, stack: seq<Pos>, v: Pos, s: TreeSpecies, leaveStump: bool, stump: int,
                    k: nat): (Pos -> Block, seq<Pos>)
    requires k < 27
  {
    var n := NearAt(v, k);
    if (leaveStump || n.y >= v.y) && IsLogOf(w(n), s) then (Keep(w, n, s, stump), stack + [n]) else (w, stack)
  }

  /** The neighbourhood loop of `FloodStep`, from turn `k` on. */
  function Scan(w: Pos -> Block, stack: seq<Pos>, v: Pos, s: TreeSpecies, leaveStump: bool, stump: int, k: nat)
    : (Pos -> Block, seq<Pos>)
    requires k <= 27
    decreases 27 - k
  {
    if k == 27 then (w, stack)
    else
      var t := ScanTurn(w, stack, v, s, leaveStump, stump, k);
      Scan(t.0, t.1, v, s, leaveStump, stump, k + 1)
  }

  /** A turn pushes at most its own neighbour. */
  lemma TurnExtends(w: Pos -> Block, stack: seq<Pos>, v: Pos, s: TreeSpecies, leaveStump: bool, stump: int,
                    k: nat)
    requires k < 27
    ensures ScanTurn(w, stack, v, s, leaveStump, stump, k).1 in {stack, stack + [NearAt(v, k)]}
  {
  }

  /** A turn keeps a log of the tree at or below the stump. */
  lemma TurnKeepsLog(w: Pos -> Block, stack: seq<Pos>, v: Pos, s: TreeSpecies, leaveStump: bool, stump: int,
                     k: nat, kept: Pos)
    requires k < 27 && IsLogOf(w(kept), s) && kept.y <= stump
    ensures IsLogOf(ScanTurn(w, stack, v, s, leaveStump, stump, k).0(kept), s)
  {
  }

  /** The turn for a log of the tree in reach pushes it. */
  lemma TurnPushes(w: Pos -> Block, stack: seq<Pos>, v: Pos, s: TreeSpecies, leaveStump: bool, stump: int,
                   k: nat, kept: Pos)
    requires k < 27 && IsLogOf(w(kept), s) && Near(v, kept, leaveStump) && NearOrd(v, kept) == k
    ensures ScanTurn(w, stack, v, s, leaveStump, stump, k).1 == stack + [kept]
  {
    NearOrdUnique(v, NearAt(v, k), kept);
  }

  /** `Scan` only pushes onto the stack. */
  lemma {:induction false} ScanExtends(w: Pos -> Block, stack: seq<Pos>, v: Pos, s: TreeSpecies,
                                       leaveStump: bool, stump: int, k: nat)
    requires k <= 27
    ensures |Scan(w, stack, v, s, leaveStump, stump, k).1| >= |stack|
    ensures forall i :: 0 <= i < |stack| ==> Scan(w, stack, v, s, leaveStump, stump, k).1[i] == stack[i]
    decreases 27 - k
  {
    if k < 27 {
      var t := ScanTurn(w, stack, v, s, leaveStump, stump, k);
      TurnExtends(w, stack, v, s, leaveStump, stump, k);
      ScanExtends(t.0, t.1, v, s, leaveStump, stump, k + 1);
    }
  }

  /** A log of the tree at or below the stump is still one after `Scan`. */
  lemma {:induction false} ScanKeepsLog(w: Pos -> Block, stack: seq<Pos>, v: Pos, s: TreeSpecies,
                                        leaveStump: bool, stump: int, k: nat, kept: Pos)
    requires k <= 27 && IsLogOf(w(kept), s) && kept.y <= stump
    ensures IsLogOf(Scan(w, stack, v, s, leaveStump, stump, k).0(kept), s)
    decreases 27 - k
  {
    if k < 27 {
      var t := ScanTurn(w, stack, v, s, leaveStump, stump, k);
      TurnKeepsLog(w, stack, v, s, leaveStump, stump, k, kept);
      ScanKeepsLog(t.0, t.1, v, s, leaveStump, stump, k + 1, kept);
    }
  }

  /** `Scan` pushes a log of the tree at or below the stump that it still has to reach in
      the neighbourhood, whether or not it was pushed before. */
  lemma {:induction false} ScanPushes(w: Pos -> Block, stack: seq<Pos>, v: Pos, s: TreeSpecies,
                                      leaveStump: bool, stump: int, k: nat, kept: Pos)
    requires k <= 27 && IsLogOf(w(kept), s) && kept.y <= stump
    requires Near(v, kept, leaveStump) && NearOrd(v, kept) >= k
    ensures kept in Scan(w, stack, v, s, leaveStump, stump, k).1
    decreases 27 - k
  {
    assert NearOrd(v, kept) < 27;
    if NearOrd(v, kept) == k {
      ScanPushesHere(w, stack, v, s, leaveStump, stump, k, kept);
    } else {
      var t := ScanTurn(w, stack, v, s, leaveStump, stump, k);
      TurnKeepsLog(w, stack, v, s, leaveStump, stump, k, kept);
      ScanPushes(t.0, t.1, v, s, leaveStump, stump, k + 1, kept);
    }
  }

  /** The turn of `Scan` that reaches a log of the tree pushes it, and later turns keep it. */
  lemma ScanPushesHere(w: Pos -> Block, stack: seq<Pos>, v: Pos, s: TreeSpecies,
                       leaveStump: bool, stump: int, k: nat, kept: Pos)
    requires k < 27 && IsLogOf(w(kept), s) && Near(v, kept, leaveStump) && NearOrd(v, kept) == k
    ensures kept in Scan(w, stack, v, s, leaveStump, stump, k).1
  {
    var t := ScanTurn(w, stack, v, s, leaveStump, stump, k);
    TurnPushes(w, stack, v, s, leaveStump, stump, k, kept);
    ScanExtends(t.0, t.1, v, s, leaveStump, stump, k + 1);
    var pushed := Scan(t.0, t.1, v, s, leaveStump, stump, k + 1).1;
    assert pushed[|stack|] == kept;
  }

  /** `steps` turns of the source's trunk loop, stopping early once the stack is empty. */
  ghost function Run(w: Pos -> Block, stack: seq<Pos>, s: TreeSpecies, leaveStump: bool, stump: int, steps: nat)
    : (Pos -> Block, seq<Pos>)
    decreases steps
  {
    if steps == 0 || |stack| == 0 then (w, stack)
    else
      var next := FloodStep(w, stack, s, leaveStump, stump);
      Run(next.0, next.1, s, leaveStump, stump, steps - 1)
  }

  /** Where `tree` cuts the trunk: one above `pos` when a stump is left and the draw
      does not pick the lower cut. */
  function CutPos(pos: Pos, leaveStump: bool, cutLow: bool): Pos {
    if leaveStump && !cutLow then pos.Plus(Up) else pos
  }

  /** A turn expanding a log of the tree at or below the stump, or a position next to
      one, pushes it again; a turn keeps every other position below the top. */
  lemma StepKeeps(w: Pos -> Block, stack: seq<Pos>, s: TreeSpecies, stump: int, kept: Pos)
    requires |stack| > 0 && IsLogOf(w(kept), s) && kept.y <= stump
    requires kept in stack[..|stack| - 1] || Near(stack[|stack| - 1], kept, true)
    ensures kept in FloodStep(w, stack, s, true, stump).1
    ensures IsLogOf(FloodStep(w, stack, s, true, stump).0(kept), s)
  {
    var rest, top := stack[..|stack| - 1], stack[|stack| - 1];
    ScanKeepsLog(w, rest, top, s, true, stump, 0, kept);
    if Near(top, kept, true) {
      ScanPushes(w, rest, top, s, true, stump, 0, kept);
    } else {
      ScanExtends(w, rest, top, s, true, stump, 0);
      var i :| 0 <= i < |rest| && rest[i] == kept;
      assert Scan(w, rest, top, s, true, stump, 0).1[i] == kept;
    }
  }

  /** A position on a stack is its top or below it. */
  lemma TopOrBelow(stack: seq<Pos>, kept: Pos)
    requires kept in stack
    ensures kept in stack[..|stack| - 1] || stack[|stack| - 1] == kept
  {
    var j :| 0 <= j < |stack| && stack[j] == kept;
    if j < |stack| - 1 {
      assert stack[..|stack| - 1][j] == kept;
    }
  }

  /** With a stump left, a log of the tree at or below the stump that is on the stack
      below its top, or next to its top, keeps the stack from ever emptying: each time
      the loop expands it or a position next to it, it is pushed again. */
  lemma {:induction false} NeverEmpties(w: Pos -> Block, stack: seq<Pos>, s: TreeSpecies, stump: int,
                                        kept: Pos, steps: nat)
    requires |stack| > 0 && IsLogOf(w(kept), s) && kept.y <= stump
    requires kept in stack[..|stack| - 1] || Near(stack[|stack| - 1], kept, true)
    ensures |Run(w, stack, s, true, stump, steps).1| > 0
    decreases steps
  {
    if steps > 0 {
      StepKeeps(w, stack, s, stump, kept);
      var next := FloodStep(w, stack, s, true, stump);
      TopOrBelow(next.1, kept);
      NeverEmpties(next.0, next.1, s, stump, kept, steps - 1);
    }
  }

  /** `rooted` is `world` once the roots are grown under the tree at `pos`, and `cut` is
      `rooted` once the trunk is cut where `tree` cuts it with a stump left. */
  ghost predicate RootedThenCut(world: Pos -> Block, rooted: Pos -> Block, cut: Pos -> Block,
                                pos: Pos, s: TreeSpecies, cutLow: bool, keep: Pos -> bool) {
    && (forall q :: rooted(q) == RootOf(world, pos, s, q))
    && (forall q {:trigger CutOf(rooted, CutPos(pos, true, cutLow), s, keep, q)} ::
          cut(q) == CutOf(rooted, CutPos(pos, true, cutLow), s, keep, q))
  }

  /** With a stump left, the source's trunk loop, started at `start` where `tree` cuts,
      never empties its stack, whatever the draws: after the lower cut the root grown under `pos` is at stump height, after the
      upper cut `pos` itself is, and the first turn pushes it. */
  lemma StumpNeverFinishes(world: Pos -> Block, rooted: Pos -> Block, cut: Pos -> Block,
                           pos: Pos, s: TreeSpecies, cutLow: bool, keep: Pos -> bool, start: Pos, steps: nat)
    requires IsLogOf(world(pos), s)
    requires RootedThenCut(world, rooted, cut, pos, s, cutLow, keep)
    requires start == CutPos(pos, true, cutLow)
    ensures |Run(cut, [start], s, true, start.y - 1, steps).1| > 0
  {
    var kept := StumpLog(world, rooted, cut, pos, s, cutLow, keep);
    StartNeverEmpties(cut, start, s, kept, steps);
  }

  /** The log at stump height next to where the trunk search starts: the root grown under
      `pos` after the lower cut, `pos` itself after the upper cut. */
  lemma StumpLog(world: Pos -> Block, rooted: Pos -> Block, cut: Pos -> Block,
                 pos: Pos, s: TreeSpecies, cutLow: bool, keep: Pos -> bool) returns (kept: Pos)
    requires IsLogOf(world(pos), s)
    requires RootedThenCut(world, rooted, cut, pos, s, cutLow, keep)
    ensures IsLogOf(cut(kept), s)
    ensures kept.y <= CutPos(pos, true, cutLow).y - 1 && Near(CutPos(pos, true, cutLow), kept, true)
  {
    if cutLow {
      kept := pos.Minus(Up);
      assert kept.Plus(Up) == pos && RingSpot(pos, pos);
      assert rooted(kept) == Log(s, world(pos).logType);
      assert cut(kept) == CutOf(rooted, CutPos(pos, true, cutLow), s, keep, kept) == rooted(kept);
    } else {
      kept := pos;
      assert rooted(pos) == world(pos);
      assert cut(pos) == CutOf(rooted, CutPos(pos, true, cutLow), s, keep, pos) == rooted(pos);
    }
  }

  /** A run from `start` alone never empties when a log at or below the stump lies next
      to `start`. */
  lemma StartNeverEmpties(w: Pos -> Block, start: Pos, s: TreeSpecies, kept: Pos, steps: nat)
    requires IsLogOf(w(kept), s) && kept.y <= start.y - 1 && Near(start, kept, true)
    ensures |Run(w, [start], s, true, start.y - 1, steps).1| > 0
  {
    NeverEmpties(w, [start], s, start.y - 1, kept, steps);
  }

  // ---------------------------------------------------------------- tree: the leaves

  /** Where leaves may be removed: the stem area, widened by the decay distance and from
      one below to four above. */
  function RemovalArea(stem: Cuboid): Cuboid {
    Cuboid(stem.min.Minus(Pos(DecayDistance, 1, DecayDistance)), stem.max.Plus(Pos(DecayDistance, 4, DecayDistance)))
  }

  /** Where leaves and logs are looked at: the removal area widened by the decay distance,
      since leaves there may belong to another tree. */
  function CheckArea(stem: Cuboid): Cuboid {
    var removal := RemovalArea(stem);
    Cuboid(removal.min.Minus(Pos(DecayDistance, DecayDistance, DecayDistance)),
           removal.max.Plus(Pos(DecayDistance, DecayDistance, DecayDistance)))
  }

  /** `inner_check_area`: the positions whose six neighbours lie in `c`. */
  function Inner(c: Cuboid): Cuboid {
    Cuboid(c.min.Plus(Pos(1, 1, 1)), c.max.Minus(Pos(1, 1, 1)))
  }

  predicate Proper(c: Cuboid) {
    c.min.x <= c.max.x && c.min.y <= c.max.y && c.min.z <= c.max.z
  }

  /** `a * b` by repeated addition, so that no product of unknowns reaches the solver. */
  function Times(a: int, b: nat): (r: int)
    ensures a >= 0 ==> r >= 0
    decreases b
  {
    if b == 0 then 0 else Times(a, b - 1) + a
  }

  lemma {:induction false} TimesMonotone(a: nat, b: nat, b': nat)
    ensures b <= b' ==> Times(a, b) <= Times(a, b')
    decreases b'
  {
    if b < b' {
      TimesMonotone(a, b, b' - 1);
    }
  }

  /** `x + w * z` stays below `w * h` for `x < w` and `z < h`. */
  lemma RowBelow(w: nat, x: nat, z: nat, h: nat)
    requires x < w && z < h
    ensures x + Times(w, z) < Times(w, h)
  {
    TimesMonotone(w, z + 1, h);
  }

  /** `x + w * z` determines `x < w` and `z`. */
  lemma RowUnique(w: nat, x1: nat, z1: nat, x2: nat, z2: nat)
    requires x1 < w && x2 < w && x1 + Times(w, z1) == x2 + Times(w, z2)
    ensures x1 == x2 && z1 == z2
  {
    TimesMonotone(w, z1 + 1, z2);
    TimesMonotone(w, z2 + 1, z1);
  }

  /** `(i / w, i % w)` by repeated subtraction. */
  function DivMod(i: nat, w: nat): (qr: (nat, nat))
    requires w > 0
    ensures qr.1 < w && i == qr.1 + Times(w, qr.0)
    decreases i
  {
    if i < w then (0, i) else var qr := DivMod(i - w, w); (qr.0 + 1, qr.1)
  }

  /** `i / w < h` for `i < w * h`. */
  lemma QuotientBelow(w: nat, i: nat, h: nat)
    requires 0 < w && i < Times(w, h)
    ensures DivMod(i, w).0 < h
  {
    TimesMonotone(w, h, DivMod(i, w).0);
  }

  /** The number of positions in `c`. */
  function Volume(c: Cuboid): (v: int)
    ensures Proper(c) ==> v >= 1
  {
    if Proper(c) then
      var sx, sz, sy := c.max.x - c.min.x + 1, c.max.z - c.min.z + 1, c.max.y - c.min.y + 1;
      TimesMonotone(sz, 1, sy);
      TimesMonotone(sx, 1, Times(sz, sy));
      Times(sx, Times(sz, sy))
    else
      0
  }

  /** The `index` closure: `x` fastest, then `z`, then `y`, the order `Cuboid::iter`
      visits the positions in. */
  function Index(c: Cuboid, p: Pos): (i: int)
    requires c.Contains(p)
    ensures 0 <= i < Volume(c)
  {
    var sx, sz, sy := c.max.x - c.min.x + 1, c.max.z - c.min.z + 1, c.max.y - c.min.y + 1;
    var x, z, y := p.x - c.min.x, p.z - c.min.z, p.y - c.min.y;
    RowBelow(sz, z, y, sy);
    RowBelow(sx, x, z + Times(sz, y), Times(sz, sy));
    x + Times(sx, z + Times(sz, y))
  }

  /** The position the `i`-th turn of `Cuboid::iter` visits. */
  function Unindex(c: Cuboid, i: int): (p: Pos)
    requires Proper(c) && 0 <= i < Volume(c)
    ensures c.Contains(p)
  {
    var sx, sz, sy := c.max.x - c.min.x + 1, c.max.z - c.min.z + 1, c.max.y - c.min.y + 1;
    var (row, x) := DivMod(i, sx);
    var (y, z) := DivMod(row, sz);
    QuotientBelow(sx, i, Times(sz, sy));
    QuotientBelow(sz, row, sy);
    Pos(c.min.x + x, c.min.y + y, c.min.z + z)
  }

  /** `Unindex` inverts `Index`. */
  lemma UnindexIndex(c: Cuboid, i: int)
    requires Proper(c) && 0 <= i < Volume(c)
    ensures Index(c, Unindex(c, i)) == i
  {
  }

  /** No two positions of `c` share an index. */
  lemma IndexInjective(c: Cuboid, p: Pos, q: Pos)
    requires c.Contains(p) && c.Contains(q) && Index(c, p) == Index(c, q)
    ensures p == q
  {
    var sx, sz := c.max.x - c.min.x + 1, c.max.z - c.min.z + 1;
    RowUnique(sx, p.x - c.min.x, (p.z - c.min.z) + Times(sz, p.y - c.min.y),
              q.x - c.min.x, (q.z - c.min.z) + Times(sz, q.y - c.min.y));
    RowUnique(sz, p.z - c.min.z, p.y - c.min.y, q.z - c.min.z, q.y - c.min.y);
  }

  /** A vector holding position `Unindex(c, j)` at each `j` holds every position of `c`
      at its index. */
  lemma SnapshotComplete(c: Cuboid, bounds: Cuboid, a: seq<(Block, u8)>, w: Pos -> Block)
    requires Proper(c) && |a| == Volume(c)
    requires forall j :: 0 <= j < |a| ==> bounds.Contains(Unindex(c, j))
    requires forall j :: 0 <= j < |a| ==> a[j] == (w(Unindex(c, j)), DecayDistance)
    ensures forall p :: c.Contains(p) ==> bounds.Contains(p) && a[Index(c, p)] == (w(p), DecayDistance)
  {
    forall p | c.Contains(p)
      ensures bounds.Contains(p) && a[Index(c, p)] == (w(p), DecayDistance)
    {
      UnindexIndex(c, Index(c, p));
      IndexInjective(c, p, Unindex(c, Index(c, p)));
    }
  }

  /** The `blocks` vector: every position of the check area with its block and the
      decay distance, pushed in iteration order. */
  method Snapshot(t: Terrain, c: Cuboid) returns (r: Result<array<(Block, u8)>>)
    requires Proper(c)
    ensures r.Ok? <==> forall p :: c.Contains(p) ==> t.bounds.Contains(p)
    ensures r.Ok? ==> fresh(r.value) && r.value.Length == Volume(c)
    ensures r.Ok? ==> forall p :: c.Contains(p) ==> r.value[Index(c, p)] == (t.block(p), DecayDistance)
  {
    var blocks := new (Block, u8)[Volume(c)](_ => (Air, DecayDistance));
    var i := 0;
    while i < blocks.Length
      invariant 0 <= i <= blocks.Length
      invariant forall j :: 0 <= j < i ==> t.bounds.Contains(Unindex(c, j))
      invariant forall j :: 0 <= j < i ==> blocks[j] == (t.block(Unindex(c, j)), DecayDistance)
    {
      var p := Unindex(c, i);
      var b := t.Get(p);
      if b.Panic? {
        return Panic(b.reason);
      }
      blocks[i] := (b.value, DecayDistance);
      i := i + 1;
    }
    SnapshotComplete(c, t.bounds, blocks[..], t.block);
    r := Ok(blocks);
  }

  // ---------------------------------------------------------------- tree: leaf decay

  /** `n` is one of the six positions sharing a face with `p`. */
  predicate Adjacent(p: Pos, n: Pos) {
    var d := n.Minus(p);
    ((d.x == 1 || d.x == -1) && d.y == 0 && d.z == 0) ||
    (d.x == 0 && (d.y == 1 || d.y == -1) && d.z == 0) ||
    (d.x == 0 && d.y == 0 && (d.z == 1 || d.z == -1))
  }

  /** The reference for leaf decay: `p` holds a log of the tree, or a leaf of the tree in
      the inner area from which a log of the tree is at most `k` steps between neighbours
      away, every step but the last onto such a leaf. */
  ghost predicate Within(w: Pos -> Block, c: Cuboid, s: TreeSpecies, p: Pos, k: nat)
    decreases k
  {
    IsLogOf(w(p), s) ||
    (k > 0 && Inner(c).Contains(p) && w(p) == Leaves(s) &&
     exists n :: Adjacent(p, n) && Within(w, c, s, n, k - 1))
  }

  /** What is within `k` steps is within any more. */
  lemma {:induction false} WithinMonotone(w: Pos -> Block, c: Cuboid, s: TreeSpecies, p: Pos, k: nat, m: nat)
    requires Within(w, c, s, p, k) && k <= m
    ensures Within(w, c, s, p, m)
    decreases k
  {
    if !IsLogOf(w(p), s) {
      var n :| Adjacent(p, n) && Within(w, c, s, n, k - 1);
      WithinMonotone(w, c, s, n, k - 1, m - 1);
    }
  }

  /** The `blocks` entry of position `p` of check area `c`. */
  function Entry(a: seq<(Block, u8)>, c: Cuboid, p: Pos): (Block, u8)
    requires |a| == Volume(c) && c.Contains(p)
  {
    a[Index(c, p)]
  }

  /** What a neighbour's entry offers the leaf next to it (the `map` closure): 0 for a log
      of the tree, its own distance for a leaf of any tree, else the decay distance. */
  function Offer(e: (Block, u8), s: TreeSpecies): (d: u8)
    ensures d == 0 <==> IsLogOf(e.0, s) || (e.0.Leaves? && e.1 == 0)
    ensures e.0.Leaves? ==> d == e.1
    ensures !IsLogOf(e.0, s) && !e.0.Leaves? ==> d == DecayDistance
  {
    if IsLogOf(e.0, s) then 0 else if e.0.Leaves? then e.1 else DecayDistance
  }

  /** `surrounds_distance`: the smallest offer of the six neighbours of an inner position. */
  function Surround(a: seq<(Block, u8)>, c: Cuboid, s: TreeSpecies, p: Pos): u8
    requires |a| == Volume(c) && Inner(c).Contains(p)
  {
    var o0 := Offer(Entry(a, c, p.Plus(Pos(1, 0, 0))), s);
    var o1 := Offer(Entry(a, c, p.Plus(Pos(-1, 0, 0))), s);
    var o2 := Offer(Entry(a, c, p.Plus(Pos(0, 1, 0))), s);
    var o3 := Offer(Entry(a, c, p.Plus(Pos(0, -1, 0))), s);
    var o4 := Offer(Entry(a, c, p.Plus(Pos(0, 0, 1))), s);
    var o5 := Offer(Entry(a, c, p.Plus(Pos(0, 0, -1))), s);
    Min(o0, Min(o1, Min(o2, Min(o3, Min(o4, o5)))))
  }

  /** No neighbour offers less than `Surround`. */
  lemma SurroundLeast(a: seq<(Block, u8)>, c: Cuboid, s: TreeSpecies, p: Pos, n: Pos)
    requires |a| == Volume(c) && Inner(c).Contains(p) && Adjacent(p, n)
    ensures Surround(a, c, s, p) <= Offer(Entry(a, c, n), s)
  {
  }

  /** Some neighbour offers `Surround`. */
  lemma SurroundAttained(a: seq<(Block, u8)>, c: Cuboid, s: TreeSpecies, p: Pos) returns (n: Pos)
    requires |a| == Volume(c) && Inner(c).Contains(p)
    ensures Adjacent(p, n) && Surround(a, c, s, p) == Offer(Entry(a, c, n), s)
  {
    var d := Surround(a, c, s, p);
    n := p.Plus(Pos(1, 0, 0));
    if d == Offer(Entry(a, c, n), s) { return; }
    n := p.Plus(Pos(-1, 0, 0));
    if d == Offer(Entry(a, c, n), s) { return; }
    n := p.Plus(Pos(0, 1, 0));
    if d == Offer(Entry(a, c, n), s) { return; }
    n := p.Plus(Pos(0, -1, 0));
    if d == Offer(Entry(a, c, n), s) { return; }
    n := p.Plus(Pos(0, 0, 1));
    if d == Offer(Entry(a, c, n), s) { return; }
    n := p.Plus(Pos(0, 0, -1));
  }

  /** The entry of a leaf of the tree at inner position `p` once the relaxation has looked
      at it: the smallest offer around it plus one, if that is less than its distance. */
  function Relaxed(a: seq<(Block, u8)>, c: Cuboid, s: TreeSpecies, p: Pos): (Block, u8)
    requires |a| == Volume(c) && Inner(c).Contains(p)
  {
    (Entry(a, c, p).0, Min(Entry(a, c, p).1, Surround(a, c, s, p) + 1))
  }

  /** The vector after the relaxation looks at inner position `p`. */
  function RelaxAt(a: seq<(Block, u8)>, c: Cuboid, s: TreeSpecies, p: Pos): seq<(Block, u8)>
    requires |a| == Volume(c) && Inner(c).Contains(p)
  {
    if Entry(a, c, p).0 == Leaves(s) then a[Index(c, p) := Relaxed(a, c, s, p)] else a
  }

  /** The relaxation's invariant on the vector of check area `c`, taken from the world
      `w`: the blocks are `w`'s, no distance exceeds the decay distance, and a distance
      below it belongs to an inner leaf of the tree that is within that many steps of a
      log of the tree. */
  ghost predicate Tracks(a: seq<(Block, u8)>, w: Pos -> Block, c: Cuboid, s: TreeSpecies) {
    |a| == Volume(c) &&
    (forall p :: c.Contains(p) ==> Entry(a, c, p).0 == w(p)) &&
    (forall p :: c.Contains(p) ==> Entry(a, c, p).1 <= DecayDistance) &&
    (forall p :: c.Contains(p) && Entry(a, c, p).1 < DecayDistance ==>
       Inner(c).Contains(p) && w(p) == Leaves(s) && Within(w, c, s, p, Entry(a, c, p).1))
  }

  /** The relaxation's progress: a leaf of the tree within `k <= j` steps of a log of the
      tree has a distance of at most `k`, for the inner positions before turn `i`. */
  ghost predicate Reached(a: seq<(Block, u8)>, w: Pos -> Block, c: Cuboid, s: TreeSpecies, j: nat, i: int) {
    |a| == Volume(c) &&
    forall p, k: nat ::
      (Inner(c).Contains(p) && Index(Inner(c), p) < i && k <= j && w(p) == Leaves(s) && Within(w, c, s, p, k))
      ==> Entry(a, c, p).1 <= k
  }

  /** Before its first turn a pass has no progress to show. */
  lemma ReachedNone(a: seq<(Block, u8)>, w: Pos -> Block, c: Cuboid, s: TreeSpecies, j: nat)
    requires |a| == Volume(c)
    ensures Reached(a, w, c, s, j, 0)
  {
  }

  /** `RelaxAt` changes the distance at `p` only, and never raises it. */
  lemma RelaxAtLowers(a: seq<(Block, u8)>, c: Cuboid, s: TreeSpecies, p: Pos)
    requires |a| == Volume(c) && Inner(c).Contains(p)
    ensures forall q :: c.Contains(q) ==>
      Entry(RelaxAt(a, c, s, p), c, q).0 == Entry(a, c, q).0 &&
      Entry(RelaxAt(a, c, s, p), c, q).1 <= Entry(a, c, q).1
    ensures forall q :: c.Contains(q) && q != p ==> Entry(RelaxAt(a, c, s, p), c, q) == Entry(a, c, q)
  {
    forall q | c.Contains(q) && q != p
      ensures Index(c, p) != Index(c, q)
    {
      if Index(c, p) == Index(c, q) {
        IndexInjective(c, p, q);
      }
    }
  }

  /** Progress is kept while distances only fall. */
  lemma ReachedLowered(a: seq<(Block, u8)>, a': seq<(Block, u8)>, w: Pos -> Block, c: Cuboid, s: TreeSpecies,
                       j: nat, i: int)
    requires Reached(a, w, c, s, j, i) && |a'| == Volume(c)
    requires forall q :: c.Contains(q) ==> Entry(a', c, q).1 <= Entry(a, c, q).1
    ensures Reached(a', w, c, s, j, i)
  {
  }

  /** The new distance at `p` is still backed by a path to a log. */
  lemma RelaxAtSound(a: seq<(Block, u8)>, w: Pos -> Block, c: Cuboid, s: TreeSpecies, p: Pos)
    requires Tracks(a, w, c, s) && Inner(c).Contains(p) && w(p) == Leaves(s)
    requires Surround(a, c, s, p) + 1 < DecayDistance
    ensures Within(w, c, s, p, Surround(a, c, s, p) + 1)
  {
    var d := Surround(a, c, s, p);
    var n := SurroundAttained(a, c, s, p);
    assert Entry(a, c, n).0 == w(n);
    if !IsLogOf(w(n), s) {
      assert Within(w, c, s, n, d);
    }
    assert Within(w, c, s, n, d);
  }

  /** The new distance at `p` reaches every path to a log one step longer than a path
      the previous passes reached. */
  lemma RelaxAtComplete(a: seq<(Block, u8)>, w: Pos -> Block, c: Cuboid, s: TreeSpecies, p: Pos, j: nat, k: nat)
    requires Tracks(a, w, c, s) && Proper(Inner(c)) && Reached(a, w, c, s, j, Volume(Inner(c)))
    requires Inner(c).Contains(p) && w(p) == Leaves(s) && k <= j + 1 && Within(w, c, s, p, k)
    ensures Surround(a, c, s, p) + 1 <= k
  {
    var n :| Adjacent(p, n) && Within(w, c, s, n, k - 1);
    SurroundLeast(a, c, s, p, n);
    assert Entry(a, c, n).0 == w(n);
    if !IsLogOf(w(n), s) {
      assert Entry(a, c, n).1 <= k - 1;
    }
  }

  /** After its turn, a leaf within `k <= j + 1` steps of a log has a distance of at most `k`. */
  lemma RelaxAtReaches(a: seq<(Block, u8)>, a': seq<(Block, u8)>, w: Pos -> Block, c: Cuboid, s: TreeSpecies,
                       p: Pos, j: nat, k: nat)
    requires Tracks(a, w, c, s) && Proper(Inner(c)) && Reached(a, w, c, s, j, Volume(Inner(c)))
    requires Inner(c).Contains(p) && w(p) == Leaves(s) && k <= j + 1 && Within(w, c, s, p, k)
    requires a' == RelaxAt(a, c, s, p)
    ensures Entry(a', c, p).1 <= k
  {
    RelaxAtComplete(a, w, c, s, p, j, k);
    assert Entry(a, c, p).0 == Leaves(s);
  }

  /** One turn of a relaxation pass keeps the invariant. */
  lemma RelaxStepTracks(a: seq<(Block, u8)>, a': seq<(Block, u8)>, w: Pos -> Block, c: Cuboid, s: TreeSpecies,
                        p: Pos)
    requires Tracks(a, w, c, s) && Inner(c).Contains(p) && a' == RelaxAt(a, c, s, p)
    ensures Tracks(a', w, c, s)
  {
    RelaxAtLowers(a, c, s, p);
    forall q | c.Contains(q) && Entry(a', c, q).1 < DecayDistance
      ensures Inner(c).Contains(q) && w(q) == Leaves(s) && Within(w, c, s, q, Entry(a', c, q).1)
    {
      RelaxStepTracksAt(a, a', w, c, s, p, q);
    }
  }

  /** The invariant's path condition at one position `q` after a turn at `p`. */
  lemma RelaxStepTracksAt(a: seq<(Block, u8)>, a': seq<(Block, u8)>, w: Pos -> Block, c: Cuboid, s: TreeSpecies,
                          p: Pos, q: Pos)
    requires Tracks(a, w, c, s) && Inner(c).Contains(p) && a' == RelaxAt(a, c, s, p)
    requires c.Contains(q) && Entry(a', c, q).1 < DecayDistance
    ensures Inner(c).Contains(q) && w(q) == Leaves(s) && Within(w, c, s, q, Entry(a', c, q).1)
  {
    RelaxAtLowers(a, c, s, p);
    if q != p || Entry(a', c, p).1 == Entry(a, c, p).1 {
      assert Entry(a', c, q).1 == Entry(a, c, q).1;
    } else {
      assert Entry(a, c, p).0 == Leaves(s) && Entry(a', c, p).1 == Surround(a, c, s, p) + 1;
      RelaxAtSound(a, w, c, s, p);
    }
  }

  /** One turn of a relaxation pass keeps the progress of the previous passes, and
      extends that of this pass by the position it looks at. */
  lemma RelaxStep(a: seq<(Block, u8)>, a': seq<(Block, u8)>, w: Pos -> Block, c: Cuboid, s: TreeSpecies,
                  j: nat, i: nat)
    requires Proper(Inner(c)) && 0 < i <= Volume(Inner(c))
    requires Tracks(a, w, c, s) && Reached(a, w, c, s, j, Volume(Inner(c))) && Reached(a, w, c, s, j + 1, i - 1)
    requires a' == RelaxAt(a, c, s, Unindex(Inner(c), i - 1))
    ensures Reached(a', w, c, s, j, Volume(Inner(c))) && Reached(a', w, c, s, j + 1, i)
  {
    RelaxAtLowers(a, c, s, Unindex(Inner(c), i - 1));
    ReachedLowered(a, a', w, c, s, j, Volume(Inner(c)));
    forall q, k: nat | (Inner(c).Contains(q) && Index(Inner(c), q) < i && k <= j + 1 &&
                        w(q) == Leaves(s) && Within(w, c, s, q, k))
      ensures Entry(a', c, q).1 <= k
    {
      RelaxStepAt(a, a', w, c, s, j, i, q, k);
    }
  }

  /** The progress of a turn of a pass at one position `q` it has passed. */
  lemma RelaxStepAt(a: seq<(Block, u8)>, a': seq<(Block, u8)>, w: Pos -> Block, c: Cuboid, s: TreeSpecies,
                    j: nat, i: nat, q: Pos, k: nat)
    requires Proper(Inner(c)) && 0 < i <= Volume(Inner(c))
    requires Tracks(a, w, c, s) && Reached(a, w, c, s, j, Volume(Inner(c))) && Reached(a, w, c, s, j + 1, i - 1)
    requires a' == RelaxAt(a, c, s, Unindex(Inner(c), i - 1))
    requires Inner(c).Contains(q) && Index(Inner(c), q) < i && k <= j + 1 && w(q) == Leaves(s) && Within(w, c, s, q, k)
    ensures Entry(a', c, q).1 <= k
  {
    var p := Unindex(Inner(c), i - 1);
    UnindexIndex(Inner(c), i - 1);
    if Index(Inner(c), q) < i - 1 {
      RelaxAtLowers(a, c, s, p);
      assert Entry(a, c, q).1 <= k;
    } else {
      IndexInjective(Inner(c), p, q);
      RelaxAtReaches(a, a', w, c, s, p, j, k);
    }
  }

  /** The state of a pass before its turn `i`: the invariant, the progress of the `j`
      passes before it, and its own progress. */
  ghost predicate Relaxing(a: seq<(Block, u8)>, w: Pos -> Block, c: Cuboid, s: TreeSpecies, j: nat, i: int) {
    Tracks(a, w, c, s) && Reached(a, w, c, s, j, Volume(Inner(c))) && Reached(a, w, c, s, j + 1, i)
  }

  /** Turn `i - 1` of a pass takes `a` to `a'`. */
  lemma RelaxTurn(a: seq<(Block, u8)>, a': seq<(Block, u8)>, w: Pos -> Block, c: Cuboid, s: TreeSpecies,
                  j: nat, i: nat)
    requires Proper(Inner(c)) && 0 < i <= Volume(Inner(c)) && Relaxing(a, w, c, s, j, i - 1)
    requires a' == RelaxAt(a, c, s, Unindex(Inner(c), i - 1))
    ensures Relaxing(a', w, c, s, j, i)
  {
    RelaxStepTracks(a, a', w, c, s, Unindex(Inner(c), i - 1));
    RelaxStep(a, a', w, c, s, j, i);
  }

  /** The first `i` turns of a pass over the inner check area, in iteration order. */
  function Sweep(a: seq<(Block, u8)>, c: Cuboid, s: TreeSpecies, i: nat): (r: seq<(Block, u8)>)
    requires |a| == Volume(c) && Proper(Inner(c)) && i <= Volume(Inner(c))
    ensures |r| == |a|
    decreases i
  {
    if i == 0 then a else RelaxAt(Sweep(a, c, s, i - 1), c, s, Unindex(Inner(c), i - 1))
  }

  /** `n` whole passes. */
  function Passes(a: seq<(Block, u8)>, c: Cuboid, s: TreeSpecies, n: nat): (r: seq<(Block, u8)>)
    requires |a| == Volume(c) && Proper(Inner(c))
    ensures |r| == |a|
    decreases n
  {
    if n == 0 then a else Sweep(Passes(a, c, s, n - 1), c, s, Volume(Inner(c)))
  }

  /** Every turn of a pass keeps the invariant and extends its progress. */
  lemma {:induction false} SweepRelaxing(a: seq<(Block, u8)>, w: Pos -> Block, c: Cuboid, s: TreeSpecies,
                                         j: nat, i: nat)
    requires Proper(Inner(c)) && i <= Volume(Inner(c))
    requires Tracks(a, w, c, s) && Reached(a, w, c, s, j, Volume(Inner(c)))
    ensures i > 0 ==> Relaxing(Sweep(a, c, s, i), w, c, s, j, i)
    decreases i
  {
    if i > 0 {
      if i == 1 {
        ReachedNone(a, w, c, s, j + 1);
      } else {
        SweepRelaxing(a, w, c, s, j, i - 1);
      }
      RelaxTurn(Sweep(a, c, s, i - 1), Sweep(a, c, s, i), w, c, s, j, i);
    }
  }

  /** After `n` passes, every leaf of the tree within `n` steps of a log of the tree has
      a distance of at most that, and every distance is still backed by a path. */
  lemma {:induction false} PassesRelaxed(a: seq<(Block, u8)>, w: Pos -> Block, c: Cuboid, s: TreeSpecies, n: nat)
    requires Proper(Inner(c)) && |a| == Volume(c)
    requires forall p :: c.Contains(p) ==> Entry(a, c, p) == (w(p), DecayDistance)
    ensures Tracks(Passes(a, c, s, n), w, c, s) && Reached(Passes(a, c, s, n), w, c, s, n, Volume(Inner(c)))
    decreases n
  {
    if n == 0 {
      RelaxStart(a, w, c, s);
    } else {
      PassesRelaxed(a, w, c, s, n - 1);
      SweepRelaxing(Passes(a, c, s, n - 1), w, c, s, n - 1, Volume(Inner(c)));
    }
  }

  /** One turn of a relaxation pass, at inner position `p`. */
  method RelaxOne(a: array<(Block, u8)>, c: Cuboid, s: TreeSpecies, p: Pos)
    requires a.Length == Volume(c) && Inner(c).Contains(p)
    modifies a
    ensures a[..] == RelaxAt(old(a[..]), c, s, p)
  {
    var at := Index(c, p);
    if a[at].0 == Leaves(s) {
      a[at] := Relaxed(a[..], c, s, p);
    }
  }

  /** A pass over the first `i + 1` positions relaxes position `i` after the first `i`. */
  lemma SweepNext(a: seq<(Block, u8)>, c: Cuboid, s: TreeSpecies, i: nat)
    requires |a| == Volume(c) && Proper(Inner(c)) && i < Volume(Inner(c))
    ensures Sweep(a, c, s, i + 1) == RelaxAt(Sweep(a, c, s, i), c, s, Unindex(Inner(c), i))
  {
  }

  /** One of the six relaxation passes over the inner check area. */
  method RelaxPass(a: array<(Block, u8)>, c: Cuboid, s: TreeSpecies)
    requires Proper(Inner(c)) && a.Length == Volume(c)
    modifies a
    ensures a[..] == Sweep(old(a[..]), c, s, Volume(Inner(c)))
  {
    ghost var start := a[..];
    var i := 0;
    while i < Volume(Inner(c))
      invariant 0 <= i <= Volume(Inner(c)) && a[..] == Sweep(start, c, s, i)
    {
      RelaxNext(a, c, s, start, i);
      i := i + 1;
    }
  }

  /** Turn `i` of a pass: the position it visits is relaxed, which extends the sweep. */
  method RelaxNext(a: array<(Block, u8)>, c: Cuboid, s: TreeSpecies, ghost start: seq<(Block, u8)>, i: nat)
    requires Proper(Inner(c)) && a.Length == Volume(c) && |start| == Volume(c) && i < Volume(Inner(c))
    requires a[..] == Sweep(start, c, s, i)
    modifies a
    ensures a[..] == Sweep(start, c, s, i + 1)
  {
    RelaxOne(a, c, s, Unindex(Inner(c), i));
    SweepNext(start, c, s, i);
  }

  /** A fresh snapshot of `w` satisfies the invariant, with no progress needed yet. */
  lemma RelaxStart(a: seq<(Block, u8)>, w: Pos -> Block, c: Cuboid, s: TreeSpecies)
    requires |a| == Volume(c) && forall p :: c.Contains(p) ==> Entry(a, c, p) == (w(p), DecayDistance)
    ensures Tracks(a, w, c, s) && Reached(a, w, c, s, 0, Volume(Inner(c)))
  {
  }

  /** The six passes. */
  method Relax(a: array<(Block, u8)>, c: Cuboid, s: TreeSpecies)
    requires Proper(Inner(c)) && a.Length == Volume(c)
    modifies a
    ensures a[..] == Passes(old(a[..]), c, s, DecayDistance)
  {
    var pass := 0;
    while pass < DecayDistance
      invariant 0 <= pass <= DecayDistance && a[..] == Passes(old(a[..]), c, s, pass)
    {
      RelaxPass(a, c, s);
      pass := pass + 1;
    }
  }

  /** After the passes, an inner leaf of the tree next to a log of the tree has a
      distance of at most one. */
  lemma NextToLog(a: seq<(Block, u8)>, w: Pos -> Block, c: Cuboid, s: TreeSpecies, p: Pos, n: Pos)
    requires Tracks(a, w, c, s) && Proper(Inner(c)) && Reached(a, w, c, s, DecayDistance, Volume(Inner(c)))
    requires Inner(c).Contains(p) && w(p) == Leaves(s) && Adjacent(p, n) && IsLogOf(w(n), s)
    ensures Entry(a, c, p).1 <= 1
  {
    assert Within(w, c, s, n, 0);
    assert Within(w, c, s, p, 1);
  }

  /** After the passes, an inner leaf of the tree keeps the decay distance exactly when no
      log of the tree is within five steps of it. */
  lemma Settled(a: seq<(Block, u8)>, w: Pos -> Block, c: Cuboid, s: TreeSpecies, p: Pos)
    requires Tracks(a, w, c, s) && Proper(Inner(c)) && Reached(a, w, c, s, DecayDistance - 1, Volume(Inner(c)))
    requires Inner(c).Contains(p) && w(p) == Leaves(s)
    ensures Entry(a, c, p).1 == DecayDistance <==> !Within(w, c, s, p, DecayDistance - 1)
  {
    if Entry(a, c, p).1 < DecayDistance {
      WithinMonotone(w, c, s, p, Entry(a, c, p).1, DecayDistance - 1);
    }
  }

  // ---------------------------------------------------------------- tree: removing the leaves

  /** A position of `removal` whose entry is a leaf of the tree that kept the decay
      distance. */
  ghost predicate Doomed(a: seq<(Block, u8)>, c: Cuboid, removal: Cuboid, s: TreeSpecies, p: Pos)
    requires |a| == Volume(c)
  {
    removal.Contains(p) && c.Contains(p) && Entry(a, c, p) == (Leaves(s), DecayDistance)
  }

  /** The removal loop: every doomed position of `removal` becomes air. */
  method Remove(t: Terrain, a: array<(Block, u8)>, c: Cuboid, removal: Cuboid, s: TreeSpecies)
    returns (r: Result<()>)
    requires Proper(removal) && a.Length == Volume(c)
    requires forall p :: removal.Contains(p) ==> c.Contains(p)
    modifies t
    ensures r.Ok? <==> forall p :: Doomed(a[..], c, removal, s, p) ==> t.bounds.Contains(p)
    ensures forall p :: t.block(p) == old(t.block)(p) || (Doomed(a[..], c, removal, s, p) && t.block(p) == Air)
    ensures r.Ok? ==> forall p :: t.block(p) == if Doomed(a[..], c, removal, s, p) then Air else old(t.block)(p)
  {
    ghost var before := t.block;
    var i := 0;
    while i < Volume(removal)
      invariant 0 <= i <= Volume(removal)
      invariant forall p :: removal.Contains(p) && Index(removal, p) < i && Doomed(a[..], c, removal, s, p) ==>
        t.bounds.Contains(p)
      invariant forall p :: (t.block(p) ==
        (if removal.Contains(p) && Index(removal, p) < i && Doomed(a[..], c, removal, s, p) then Air else before(p)))
    {
      var p := Unindex(removal, i);
      UnindexIndex(removal, i);
      var e := a[Index(c, p)];
      if e.0 == Leaves(s) && e.1 == DecayDistance {
        assert Doomed(a[..], c, removal, s, p);
        r := t.Set(p, Air);
        if r.Panic? {
          return;
        }
      }
      forall q | removal.Contains(q) && Index(removal, q) == i {
        IndexInjective(removal, p, q);
      }
      i := i + 1;
    }
    r := Ok(());
  }

  /** The reference for the leaves `tree` removes, on the world `w` after the trunk is
      gone: a leaf of the tree in the removal area from which no log of the tree is within
      five steps through leaves of the tree in the inner check area. */
  ghost predicate Decays(w: Pos -> Block, stem: Cuboid, s: TreeSpecies, p: Pos) {
    RemovalArea(stem).Contains(p) && w(p) == Leaves(s) && !Within(w, CheckArea(stem), s, p, DecayDistance - 1)
  }

  /** After the six passes, the doomed entries are exactly the decaying leaves. */
  lemma DoomedDecays(a: seq<(Block, u8)>, w: Pos -> Block, stem: Cuboid, s: TreeSpecies, p: Pos)
    requires Proper(stem)
    requires Tracks(a, w, CheckArea(stem), s)
    requires Reached(a, w, CheckArea(stem), s, DecayDistance, Volume(Inner(CheckArea(stem))))
    ensures Doomed(a, CheckArea(stem), RemovalArea(stem), s, p) <==> Decays(w, stem, s, p)
  {
    var c := CheckArea(stem);
    if RemovalArea(stem).Contains(p) && w(p) == Leaves(s) {
      assert Inner(c).Contains(p);
      Settled(a, w, c, s, p);
    }
  }

  /** The leaf removal of `tree` around the stem area `stem`: takes the `blocks` snapshot
      of the check area, relaxes the distances six times and removes the leaves that kept
      the decay distance, which are exactly the decaying ones. */
  method Decay(t: Terrain, stem: Cuboid, s: TreeSpecies) returns (r: Result<()>)
    requires Proper(stem)
    modifies t
    ensures r.Ok? <==> forall p :: CheckArea(stem).Contains(p) ==> t.bounds.Contains(p)
    ensures forall p :: t.block(p) == if r.Ok? && Decays(old(t.block), stem, s, p) then Air else old(t.block)(p)
  {
    var c, removal := CheckArea(stem), RemovalArea(stem);
    ghost var w := t.block;
    var snapshot := Snapshot(t, c);
    if snapshot.Panic? {
      return Panic(snapshot.reason);
    }
    var a := snapshot.value;
    ghost var a0 := a[..];
    Relax(a, c, s);
    PassesRelaxed(a0, w, c, s, DecayDistance);
    forall p ensures Doomed(a[..], c, removal, s, p) <==> Decays(w, stem, s, p) {
      DoomedDecays(a[..], w, stem, s, p);
    }
    r := Remove(t, a, c, removal, s);
  }

  // ---------------------------------------------------------------- tree and trees

  /** What felling the tree at `pos` may do to position `p`: nothing; turn the cut, a log
      of the tree or a leaf of the tree into air; or, leaving a stump, grow a root of the
      tree below a log of the tree in the layer of `pos`. */
  ghost predicate Felled(before: Pos -> Block, after: Pos -> Block, pos: Pos, leaveStump: bool, cutLow: bool, p: Pos) {
    after(p) == before(p) ||
    (before(pos).Log? &&
     var s := before(pos).species;
     (after(p) == Air && (p == CutPos(pos, leaveStump, cutLow) || IsLogOf(before(p), s) || before(p) == Leaves(s))) ||
     (leaveStump && RingSpot(pos, p.Plus(Up)) && IsLogOf(before(p.Plus(Up)), s) &&
      after(p) == Log(s, before(p.Plus(Up)).logType)))
  }

  /** The four stages of `tree` at one position compose to `Felled`: roots only grow one
      below `pos`, where neither the cut nor the trunk search (which keeps everything at or
      below one under the cut) nor the leaf removal touches them. */
  lemma FelledAt(w0: Pos -> Block, w1: Pos -> Block, w2: Pos -> Block, w3: Pos -> Block, w4: Pos -> Block,
                 pos: Pos, leaveStump: bool, cutLow: bool, keep: Pos -> bool, stem: Cuboid, p: Pos)
    requires w0(pos).Log?
    requires w1(p) == w0(p) || (leaveStump && w1(p) == RootOf(w0, pos, w0(pos).species, p))
    requires w2(p) == w1(p) || w2(p) == CutOf(w1, CutPos(pos, leaveStump, cutLow), w0(pos).species, keep, p)
    requires Trimmed(w2, w3, w0(pos).species, CutPos(pos, leaveStump, cutLow).y - 1)
    requires w4(p) == w3(p) || (Decays(w3, stem, w0(pos).species, p) && w4(p) == Air)
    ensures Felled(w0, w4, pos, leaveStump, cutLow, p)
  {
    var s, cut := w0(pos).species, CutPos(pos, leaveStump, cutLow);
    assert w3(p) == w2(p) || (IsLogOf(w2(p), s) && p.y > cut.y - 1 && w3(p) == Air);
    if w1(p) != w0(p) {
      assert p != cut && !RingSpot(cut, p) && p.y <= cut.y - 1;
    }
  }

  /** The whole trunk search is done: no log of the tree is left above the stump next to
      a position it expanded. */
  ghost predicate TrunkGone(w: Pos -> Block, trunk: set<Pos>, s: TreeSpecies, leaveStump: bool, cut: Pos) {
    forall v, n :: v in trunk && Near(v, n, leaveStump) && n.y >= cut.y ==> !IsLogOf(w(n), s)
  }

  /** A completed trunk search from the cut leaves no log of the tree above the stump
      next to what it expanded. */
  lemma TrunkCleared(before: Pos -> Block, after: Pos -> Block, trunk: set<Pos>, s: TreeSpecies,
                     leaveStump: bool, cut: Pos)
    requires before(cut) == Air
    requires Removed(before, after, {cut}, trunk, s, cut.y - 1)
    requires forall v :: v in trunk ==> Explored(after, trunk, v, s, leaveStump)
    ensures TrunkGone(after, trunk, s, leaveStump, cut)
  {
    forall v, n | v in trunk && Near(v, n, leaveStump) && n.y >= cut.y
      ensures !IsLogOf(after(n), s)
    {
      assert IsLogOf(after(n), s) ==> n in trunk;
    }
  }

  /** Removing leaves leaves the trunk gone. */
  lemma TrunkStaysGone(before: Pos -> Block, after: Pos -> Block, trunk: set<Pos>, s: TreeSpecies,
                       leaveStump: bool, cut: Pos)
    requires TrunkGone(before, trunk, s, leaveStump, cut)
    requires forall p :: after(p) == before(p) || after(p) == Air
    ensures TrunkGone(after, trunk, s, leaveStump, cut)
  {
    forall v, n | v in trunk && Near(v, n, leaveStump) && n.y >= cut.y
      ensures !IsLogOf(after(n), s)
    {
      assert after(n) == before(n) || after(n) == Air;
    }
  }

  /** `tree`: fells the tree whose log is at `pos`, if there is one. `cutLow` is the draw
      that cuts at `pos` rather than one above when a stump is left, `keep` the draws that
      keep a log of the cut layer standing on a log; `trunk` is the set of positions the
      trunk search expanded. */
  method Tree(t: Terrain, pos: Pos, leaveStump: bool, cutLow: bool, keep: Pos -> bool)
    returns (r: Result<()>, ghost trunk: set<Pos>)
    modifies t
    ensures !t.bounds.Contains(pos) ==> r.Panic? && t.block == old(t.block)
    ensures t.bounds.Contains(pos) && !old(t.block)(pos).Log? ==> r.Ok? && t.block == old(t.block)
    ensures forall p :: Felled(old(t.block), t.block, pos, leaveStump, cutLow, p)
    ensures r.Ok? && old(t.block)(pos).Log? ==>
      var cut := CutPos(pos, leaveStump, cutLow);
      t.block(cut) == Air && cut in trunk && TrunkGone(t.block, trunk, old(t.block)(pos).species, leaveStump, cut)
  {
    trunk := {};
    var b := t.Get(pos);
    if b.Panic? {
      return Panic(b.reason), trunk;
    }
    if !b.value.Log? {
      return Ok(()), trunk;
    }
    var s := b.value.species;
    ghost var w0 := t.block;
    if leaveStump {
      r := Roots(t, pos, s);
      if r.Panic? {
        forall p ensures Felled(w0, t.block, pos, leaveStump, cutLow, p) {
          FelledAt(w0, t.block, t.block, t.block, t.block, pos, leaveStump, cutLow, keep, Cuboid(pos, pos), p);
        }
        return;
      }
    }
    ghost var w1 := t.block;
    var cut := CutPos(pos, leaveStump, cutLow);
    r := Cut(t, cut, s, keep);
    ghost var w2 := t.block;
    if r.Panic? {
      forall p ensures Felled(w0, w2, pos, leaveStump, cutLow, p) {
        FelledAt(w0, w1, w2, w2, w2, pos, leaveStump, cutLow, keep, Cuboid(pos, pos), p);
      }
      return;
    }
    var stem;
    stem, trunk := FloodFill(t, cut, s, leaveStump, Cuboid(pos, pos));
    ghost var w3 := t.block;
    if stem.Panic? {
      forall p ensures Felled(w0, w3, pos, leaveStump, cutLow, p) {
        FelledAt(w0, w1, w2, w3, w3, pos, leaveStump, cutLow, keep, Cuboid(pos, pos), p);
      }
      return Panic(stem.reason), trunk;
    }
    TrunkCleared(w2, w3, trunk, s, leaveStump, cut);
    r := Decay(t, stem.value, s);
    TrunkStaysGone(w3, t.block, trunk, s, leaveStump, cut);
    forall p ensures Felled(w0, t.block, pos, leaveStump, cutLow, p) {
      FelledAt(w0, w1, w2, w3, t.block, pos, leaveStump, cutLow, keep, stem.value, p);
    }
  }

  /** What `trees` may do to a position: nothing, turn it into air, or, leaving stumps,
      put a log there. */
  ghost predicate Logged(before: Pos -> Block, after: Pos -> Block, leaveStumps: bool, p: Pos) {
    after(p) == before(p) || after(p) == Air || (leaveStumps && after(p).Log?)
  }

  /** The position `trees` looks at in column `c`: one above the ground. */
  function Top(t: Terrain, c: Column): Pos {
    At(c, t.ground(c) + 1)
  }

  /** `trees`: fells the tree standing on every column of `area` in turn, with the draws
      of turn `i` given by `cutLow(i)` and `keep(i)`. */
  method Trees(t: Terrain, area: seq<Column>, leaveStumps: bool, cutLow: nat -> bool, keep: nat -> Pos -> bool)
    returns (r: Result<()>)
    modifies t
    ensures forall p :: Logged(old(t.block), t.block, leaveStumps, p)
    ensures (forall i :: 0 <= i < |area| ==> !old(t.block)(Top(t, area[i])).Log?) ==> t.block == old(t.block)
    ensures r.Ok? && !leaveStumps ==> forall i :: 0 <= i < |area| ==> !t.block(Top(t, area[i])).Log?
  {
    ghost var before := t.block;
    ghost var untouched := forall i :: 0 <= i < |area| ==> !before(Top(t, area[i])).Log?;
    var i := 0;
    while i < |area|
      invariant 0 <= i <= |area|
      invariant forall p :: Logged(before, t.block, leaveStumps, p)
      invariant untouched ==> t.block == before
      invariant !leaveStumps ==> forall j :: 0 <= j < i ==> !t.block(Top(t, area[j])).Log?
    {
      var h := t.Height(area[i]);
      if h.Panic? {
        return Panic(h.reason);
      }
      var pos := At(area[i], h.value + 1);
      var b := t.Get(pos);
      if b.Panic? {
        return Panic(b.reason);
      }
      if b.value.Log? {
        ghost var mid := t.block;
        ghost var trunk;
        r, trunk := Tree(t, pos, leaveStumps, cutLow(i), keep(i));
        forall p ensures Logged(before, t.block, leaveStumps, p) {
          assert Felled(mid, t.block, pos, leaveStumps, cutLow(i), p);
          assert Logged(before, mid, leaveStumps, p);
        }
        if r.Panic? {
          return;
        }
        if !leaveStumps {
          forall j | 0 <= j < i ensures !t.block(Top(t, area[j])).Log? {
            assert Felled(mid, t.block, pos, leaveStumps, cutLow(i), Top(t, area[j]));
          }
        }
      }
      i := i + 1;
    }
    r := Ok(());
  }
}
