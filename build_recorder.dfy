/** The build recorder of src/build_recorder.rs: a copy-on-first-write overlay over a
    world that is only read. Blocks, heights and water levels written through the
    recorder are kept in its own tables; `finish` drops the block entries that did not
    change, and the resulting record can be applied to another world or listed as
    commands. The block and tile-entity types are parameters: the recorder only copies,
    compares and stores them. */
module BuildRecorder {

  import opened Common
  import opened Geometry

  /** `Option<NonZeroU8>` water levels. */
  type NonZeroU8 = x: int | 1 <= x < 256 witness 1

  /** What the recorder reads from the world under it: a block per position, a height per
      column and an optional water level per column. */
  datatype View<B> = View(block: Pos -> B, height: Column -> u8, water: Column -> Option<NonZeroU8>)

  /** A block entry: the block and the tile entity written with it, if any. */
  type Entry<B, T> = (B, Option<T>)

  /** The positions of `order` are distinct and are exactly the keys of `blocks`: the
      linked hash map's keys in insertion order. */
  ghost predicate Linked<V>(order: seq<Pos>, blocks: map<Pos, V>) {
    && (forall i, j :: 0 <= i < j < |order| ==> order[i] != order[j])
    && (forall k :: k in blocks <==> k in order)
  }

  /** The recorder. `base` is the world under it, which it never changes. */
  class Recorder<B(==), T> {
    const base: View<B>
    var order: seq<Pos>
    var blocks: map<Pos, Entry<B, T>>
    var heights: map<Column, u8>
    var waters: map<Column, Option<NonZeroU8>>

    ghost predicate Valid()
      reads this
    {
      Linked(order, blocks)
    }

    /** `BuildRecorder::new`: nothing recorded yet. */
    constructor (world: View<B>)
      ensures Valid()
      ensures base == world && order == [] && blocks == map[] && heights == map[] && waters == map[]
    {
      base := world;
      order := [];
      blocks := map[];
      heights := map[];
      waters := map[];
    }

    /** `get`: the recorded block if there is one, else the world's. */
    function Get(pos: Pos): (b: B)
      reads this
      ensures pos in blocks ==> b == blocks[pos].0
      ensures pos !in blocks ==> b == base.block(pos)
    {
      if pos in blocks then blocks[pos].0 else base.block(pos)
    }

    /** `heightmap`: the recorded height if there is one, else the world's. */
    function Height(col: Column): (h: u8)
      reads this
      ensures col in heights ==> h == heights[col]
      ensures col !in heights ==> h == base.height(col)
    {
      if col in heights then heights[col] else base.height(col)
    }

    /** `watermap`: the recorded water level if there is one, else the world's. */
    function Water(col: Column): (w: Option<NonZeroU8>)
      reads this
      ensures col in waters ==> w == waters[col]
      ensures col !in waters ==> w == base.water(col)
    {
      if col in waters then waters[col] else base.water(col)
    }

    /** `get_mut`: on the first access to `pos` its block is copied from the world,
        without a tile entity, at the end of the insertion order; a later access finds the
        entry in place. What the recorder shows does not change. */
    method GetMut(pos: Pos)
      requires Valid()
      modifies this
      ensures Valid()
      ensures heights == old(heights) && waters == old(waters)
      ensures old(pos in blocks) ==> blocks == old(blocks) && order == old(order)
      ensures old(pos !in blocks) ==>
        blocks == old(blocks)[pos := (base.block(pos), None)] && order == old(order) + [pos]
      ensures forall p :: Get(p) == old(Get(p))
    {
      if pos !in blocks {
        blocks := blocks[pos := (base.block(pos), None)];
        order := order + [pos];
      }
    }

    /** `set`: `*get_mut(pos) = block`; the entry keeps its tile entity. */
    method Set(pos: Pos, block: B)
      requires Valid()
      modifies this
      ensures Valid()
      ensures heights == old(heights) && waters == old(waters)
      ensures old(pos in blocks) ==> order == old(order) && blocks == old(blocks)[pos := (block, old(blocks)[pos].1)]
      ensures old(pos !in blocks) ==> order == old(order) + [pos] && blocks == old(blocks)[pos := (block, None)]
      ensures Get(pos) == block
      ensures forall p :: p != pos ==> Get(p) == old(Get(p))
    {
      GetMut(pos);
      blocks := blocks[pos := (block, blocks[pos].1)];
    }

    /** `*heightmap_mut(col) = h`: the entry is created from the world's height on first
        access, then overwritten. */
    method SetHeight(col: Column, h: u8)
      requires Valid()
      modifies this
      ensures Valid()
      ensures order == old(order) && blocks == old(blocks) && waters == old(waters)
      ensures heights == old(heights)[col := h]
      ensures Height(col) == h && forall c :: c != col ==> Height(c) == old(Height(c))
    {
      if col !in heights {
        heights := heights[col := base.height(col)];
      }
      heights := heights[col := h];
    }

    /** `*watermap_mut(col) = w`, the same way. */
    method SetWater(col: Column, w: Option<NonZeroU8>)
      requires Valid()
      modifies this
      ensures Valid()
      ensures order == old(order) && blocks == old(blocks) && heights == old(heights)
      ensures waters == old(waters)[col := w]
      ensures Water(col) == w && forall c :: c != col ==> Water(c) == old(Water(c))
    {
      if col !in waters {
        waters := waters[col := base.water(col)];
      }
      waters := waters[col := w];
    }

    /** An entry `finish` keeps: its block differs from the world's, or it has a tile
        entity. */
    predicate Kept(pos: Pos)
      reads this
      requires pos in blocks
    {
      base.block(pos) != blocks[pos].0 || blocks[pos].1.Some?
    }

    /** `finish`: `retain` over the block entries in insertion order, keeping the changed
        ones and those with a tile entity; heights and water levels are kept as they
        are. */
    method Finish() returns (r: BuildRecord<B, T>)
      requires Valid()
      ensures Linked(r.order, r.blocks)
      ensures r.order == Filtered(order, blocks, base)
      ensures forall p :: p in r.blocks <==> p in blocks && Kept(p)
      ensures forall p :: p in r.blocks ==> r.blocks[p] == blocks[p]
      ensures r.heights == heights && r.waters == waters
    {
      var kept: seq<Pos> := [];
      var keptBlocks: map<Pos, Entry<B, T>> := map[];
      for i := 0 to |order|
        invariant kept == Filtered(order[..i], blocks, base)
        invariant forall p :: p in keptBlocks <==> p in order[..i] && Kept(p)
        invariant forall p :: p in keptBlocks ==> keptBlocks[p] == blocks[p]
      {
        assert order[..i + 1][..i] == order[..i];
        var pos := order[i];
        if Kept(pos) {
          kept := kept + [pos];
          keptBlocks := keptBlocks[pos := blocks[pos]];
        }
      }
      assert order[..|order|] == order;
      FilteredLinked(order, blocks, base);
      r := BuildRecord(kept, keptBlocks, heights, waters);
    }
  }

  /** The positions of `order` whose entry `finish` keeps, in order. */
  function Filtered<B(==), T>(order: seq<Pos>, blocks: map<Pos, Entry<B, T>>, base: View<B>): (r: seq<Pos>)
    requires forall p :: p in order ==> p in blocks
    ensures forall p :: p in r <==> p in order && (base.block(p) != blocks[p].0 || blocks[p].1.Some?)
  {
    if order == [] then []
    else
      var init := Filtered(order[..|order| - 1], blocks, base);
      var p := order[|order| - 1];
      if base.block(p) != blocks[p].0 || blocks[p].1.Some? then init + [p] else init
  }

  /** Filtering keeps the positions distinct and in their original relative order. */
  lemma {:induction false} FilteredLinked<B, T>(order: seq<Pos>, blocks: map<Pos, Entry<B, T>>, base: View<B>)
    requires Linked(order, blocks)
    ensures forall i, j :: 0 <= i < j < |Filtered(order, blocks, base)| ==> Filtered(order, blocks, base)[i] != Filtered(order, blocks, base)[j]
  {
    if order != [] {
      var init := order[..|order| - 1];
      var last := order[|order| - 1];
      assert forall i :: 0 <= i < |init| ==> init[i] == order[i];
      FilteredLinked(init, map p | p in init :: blocks[p], base);
      FilteredAgrees(init, blocks, map p | p in init :: blocks[p], base);
      assert last !in init;
    }
  }

  /** Filtering looks only at the entries of the positions it filters. */
  lemma {:induction false} FilteredAgrees<B, T>(order: seq<Pos>, a: map<Pos, Entry<B, T>>, b: map<Pos, Entry<B, T>>, base: View<B>)
    requires forall p :: p in order ==> p in a && p in b && a[p] == b[p]
    ensures Filtered(order, a, base) == Filtered(order, b, base)
  {
    if order != [] {
      FilteredAgrees(order[..|order| - 1], a, b, base);
    }
  }

  /** What `finish` hands back: the kept block entries in insertion order, and the
      recorded heights and water levels. */
  datatype BuildRecord<B, T> = BuildRecord(
    order: seq<Pos>,
    blocks: map<Pos, Entry<B, T>>,
    heights: map<Column, u8>,
    waters: map<Column, Option<NonZeroU8>>)

  /** A world that a record is applied to. */
  class Target<B> {
    var block: Pos -> B
    var height: Column -> u8
    var water: Column -> Option<NonZeroU8>

    constructor (v: View<B>)
      ensures block == v.block && height == v.height && water == v.water
    {
      block := v.block;
      height := v.height;
      water := v.water;
    }

    /** `*get_mut(pos) = b`. */
    method SetBlock(pos: Pos, b: B)
      modifies this
      ensures height == old(height) && water == old(water)
      ensures block(pos) == b && forall p :: p != pos ==> block(p) == old(block)(p)
    {
      var before := block;
      block := p => if p == pos then b else before(p);
    }

    /** `*heightmap_mut(col) = h`. */
    method SetHeight(col: Column, h: u8)
      modifies this
      ensures block == old(block) && water == old(water)
      ensures height(col) == h && forall c :: c != col ==> height(c) == old(height)(c)
    {
      var before := height;
      height := c => if c == col then h else before(c);
    }

    /** `*watermap_mut(col) = w`. */
    method SetWater(col: Column, w: Option<NonZeroU8>)
      modifies this
      ensures block == old(block) && height == old(height)
      ensures water(col) == w && forall c :: c != col ==> water(c) == old(water)(c)
    {
      var before := water;
      water := c => if c == col then w else before(c);
    }
  }

  /** `apply_to`: writes every recorded block (in insertion order), height and water
      level into `world`; everything else in it stays as it was. */
  method ApplyTo<B, T>(record: BuildRecord<B, T>, world: Target<B>)
    requires Linked(record.order, record.blocks)
    modifies world
    ensures forall p :: world.block(p) == if p in record.blocks then record.blocks[p].0 else old(world.block)(p)
    ensures forall c :: world.height(c) == if c in record.heights then record.heights[c] else old(world.height)(c)
    ensures forall c :: world.water(c) == if c in record.waters then record.waters[c] else old(world.water)(c)
  {
    ApplyBlocks(record.order, record.blocks, world);
    ApplyHeights(record.heights, world);
    ApplyWaters(record.waters, world);
  }

  /** The block loop of `apply_to`, in insertion order. */
  method ApplyBlocks<B, T>(order: seq<Pos>, blocks: map<Pos, Entry<B, T>>, world: Target<B>)
    requires Linked(order, blocks)
    modifies world
    ensures world.height == old(world.height) && world.water == old(world.water)
    ensures forall p :: world.block(p) == if p in blocks then blocks[p].0 else old(world.block)(p)
  {
    ghost var block0 := world.block;
    for i := 0 to |order|
      invariant world.height == old(world.height) && world.water == old(world.water)
      invariant forall p :: world.block(p) == if p in order[..i] then blocks[p].0 else block0(p)
    {
      var pos := order[i];
      world.SetBlock(pos, blocks[pos].0);
      assert order[..i + 1] == order[..i] + [pos];
    }
    assert order[..|order|] == order;
  }

  /** The height loop of `apply_to`; the map's iteration order does not matter, since
      its keys are distinct. */
  method ApplyHeights<B>(heights: map<Column, u8>, world: Target<B>)
    modifies world
    ensures world.block == old(world.block) && world.water == old(world.water)
    ensures forall c :: world.height(c) == if c in heights then heights[c] else old(world.height)(c)
  {
    ghost var height0 := world.height;
    var rest := heights;
    while rest != map[]
      invariant forall c :: c in rest ==> c in heights && rest[c] == heights[c]
      invariant world.block == old(world.block) && world.water == old(world.water)
      invariant forall c :: world.height(c) == (if c in heights && c !in rest then heights[c] else height0(c))
      decreases |rest|
    {
      var col :| col in rest;
      world.SetHeight(col, rest[col]);
      rest := rest - {col};
    }
  }

  /** The water loop of `apply_to`. */
  method ApplyWaters<B>(waters: map<Column, Option<NonZeroU8>>, world: Target<B>)
    modifies world
    ensures world.block == old(world.block) && world.height == old(world.height)
    ensures forall c :: world.water(c) == if c in waters then waters[c] else old(world.water)(c)
  {
    ghost var water0 := world.water;
    var rest := waters;
    while rest != map[]
      invariant forall c :: c in rest ==> c in waters && rest[c] == waters[c]
      invariant world.block == old(world.block) && world.height == old(world.height)
      invariant forall c :: world.water(c) == (if c in waters && c !in rest then waters[c] else water0(c))
      decreases |rest|
    {
      var col :| col in rest;
      world.SetWater(col, rest[col]);
      rest := rest - {col};
    }
  }

  /** Applying the finished record to a copy of the world under the recorder reproduces
      exactly what the recorder shows: the entries `finish` drops are those equal to the
      world's block. */
  lemma FinishedShowsRecorder<B, T>(rec: Recorder<B, T>, r: BuildRecord<B, T>, p: Pos)
    requires forall q :: q in r.blocks <==> q in rec.blocks && rec.Kept(q)
    requires forall q :: q in r.blocks ==> r.blocks[q] == rec.blocks[q]
    ensures (if p in r.blocks then r.blocks[p].0 else rec.base.block(p)) == rec.Get(p)
  {
  }

  /** A command of `commands`: `setblock` at a position with a block, and with the tile
      entity's data when there is one. The text rendering is not modelled. */
  datatype Command<B, T> = SetBlock(pos: Pos, block: B, tileEntity: Option<T>)

  /** `commands`: one `setblock` per recorded block, in insertion order. */
  method Commands<B, T>(record: BuildRecord<B, T>) returns (cmds: seq<Command<B, T>>)
    requires Linked(record.order, record.blocks)
    ensures |cmds| == |record.order|
    ensures forall i :: 0 <= i < |cmds| ==>
      var p := record.order[i];
      cmds[i] == SetBlock(p, record.blocks[p].0, record.blocks[p].1)
  {
    cmds := [];
    for i := 0 to |record.order|
      invariant |cmds| == i
      invariant forall j :: 0 <= j < i ==>
        var p := record.order[j];
        cmds[j] == SetBlock(p, record.blocks[p].0, record.blocks[p].1)
    {
      var pos := record.order[i];
      cmds := cmds + [SetBlock(pos, record.blocks[pos].0, record.blocks[pos].1)];
    }
  }
}
