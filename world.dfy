/** The world store of the older layout (src/world/mod.rs): the loaded area is a
    rectangle of chunks, each chunk holds 24 sections of 16 * 16 * 16 blocks (section `k`
    starts at level `(k - 4) * 16`), a section is instantiated lazily on first write, and
    each column has a ground height and an optional water level. Region files, level.dat
    and entities are not part of this model; chunk data arrives as section records. */
module World {

  import opened Common
  import opened Geometry
  import opened WorldBlock
  import opened Nbt
  import Palette

  /** Sections per chunk: levels -64 to 319. */
  const SectionsPerChunk: nat := 24

  /** Columns per chunk. */
  const ColumnsPerChunk: nat := 256

  /** 2^64: `usize` arithmetic wraps at this bound (overflow checks off, as in a release
      build). */
  const UsizeLimit: nat := 0x1_0000_0000_0000_0000

  // ---------------------------------------------------------------------------------------
  // Index arithmetic

  /** The chunk rectangle is well formed: both corners inclusive, min below max. */
  predicate Bounds(min: ChunkIndex, max: ChunkIndex) {
    min.x <= max.x && min.z <= max.z
  }

  /** Chunks per row (along x). */
  function RowLength(min: ChunkIndex, max: ChunkIndex): nat
    requires Bounds(min, max)
  {
    max.x - min.x + 1
  }

  /** `chunk_count`. */
  function ChunkCount(min: ChunkIndex, max: ChunkIndex): nat
    requires Bounds(min, max)
  {
    RowLength(min, max) * (max.z - min.z + 1)
  }

  predicate InChunks(min: ChunkIndex, max: ChunkIndex, c: ChunkIndex) {
    min.x <= c.x <= max.x && min.z <= c.z <= max.z
  }

  /** `chunk_index`: panics outside the loaded chunks, else the row-major offset with x
      varying fastest. */
  function ChunkIndexIn(min: ChunkIndex, max: ChunkIndex, c: ChunkIndex): (r: Result<nat>)
    requires Bounds(min, max)
    ensures r.Ok? <==> InChunks(min, max, c)
  {
    if c.x < min.x || c.x > max.x || c.z < min.z || c.z > max.z then
      Panic("Out of bounds access to chunk")
    else
      var dz: nat := c.z - min.z;
      MulStep(RowLength(min, max), dz);
      Ok((c.x - min.x) + dz * RowLength(min, max))
  }

  /** `w * a <= w * b` for `a <= b`. */
  lemma {:induction false} MulMonotone(w: nat, a: nat, b: nat)
    requires a <= b
    ensures w * a <= w * b
    decreases b
  {
    if a < b {
      MulMonotone(w, a, b - 1);
      assert w * b == w * (b - 1) + w;
    }
  }

  /** An offset `x + z * w` with `x < w` determines both parts. */
  lemma RowMajorUnique(w: nat, x1: nat, z1: nat, x2: nat, z2: nat)
    requires x1 < w && x2 < w && x1 + z1 * w == x2 + z2 * w
    ensures x1 == x2 && z1 == z2
  {
    if z1 < z2 {
      MulMonotone(w, z1 + 1, z2);
    } else if z2 < z1 {
      MulMonotone(w, z2 + 1, z1);
    }
  }

  /** Inside the loaded area `chunk_index` is below the chunk count, and no two chunks
      share an index. */
  lemma ChunkIndexInjective(min: ChunkIndex, max: ChunkIndex, c: ChunkIndex, d: ChunkIndex)
    requires Bounds(min, max) && InChunks(min, max, c) && InChunks(min, max, d)
    ensures ChunkIndexIn(min, max, c).value < ChunkCount(min, max)
    ensures ChunkIndexIn(min, max, c) == ChunkIndexIn(min, max, d) ==> c == d
  {
    var w := RowLength(min, max);
    var h := max.z - min.z + 1;
    MulMonotone(w, c.z - min.z + 1, h);
    assert (c.z - min.z + 1) * w == (c.z - min.z) * w + w;
    assert w * (c.z - min.z + 1) == (c.z - min.z + 1) * w && w * h == h * w;
    if ChunkIndexIn(min, max, c) == ChunkIndexIn(min, max, d) {
      RowMajorUnique(w, c.x - min.x, c.z - min.z, d.x - min.x, d.z - min.z);
    }
  }

  /** The chunk at a given index: the inverse of `chunk_index`. */
  function ChunkAt(min: ChunkIndex, max: ChunkIndex, k: nat): ChunkIndex
    requires Bounds(min, max)
  {
    ChunkIndex(min.x + k % RowLength(min, max), min.z + k / RowLength(min, max))
  }

  /** Every index below the chunk count belongs to exactly one chunk, so `chunk_index` is
      a bijection between the loaded chunks and `0..chunk_count`. */
  lemma ChunkIndexOnto(min: ChunkIndex, max: ChunkIndex, k: nat)
    requires Bounds(min, max) && k < ChunkCount(min, max)
    ensures InChunks(min, max, ChunkAt(min, max, k))
    ensures ChunkIndexIn(min, max, ChunkAt(min, max, k)) == Ok(k)
  {
    var w := RowLength(min, max);
    var h := max.z - min.z + 1;
    var q := k / w;
    assert k == q * w + k % w;
    if q >= h {
      MulMonotone(w, h, q);
    }
  }

  /** x varies fastest: stepping along a row adds one, and the end of a row is followed
      by the start of the next, which is the order the load and save loops visit chunks. */
  lemma ChunkIndexRowMajor(min: ChunkIndex, max: ChunkIndex, c: ChunkIndex)
    requires Bounds(min, max) && InChunks(min, max, c)
    ensures c.x < max.x ==>
      ChunkIndexIn(min, max, ChunkIndex(c.x + 1, c.z)) == Ok(ChunkIndexIn(min, max, c).value + 1)
    ensures c.x == max.x && c.z < max.z ==>
      ChunkIndexIn(min, max, ChunkIndex(min.x, c.z + 1)) == Ok(ChunkIndexIn(min, max, c).value + 1)
  {
    var w := RowLength(min, max);
    assert (c.z - min.z + 1) * w == (c.z - min.z) * w + w;
  }

  /** `v / 16` on an `i32`, truncating toward zero. */
  function TruncDiv16(v: int): int {
    if v >= 0 then v / 16 else -((-v) / 16)
  }

  /** `section_index`: the chunk's first section plus `y / 16 + 4`, where the division
      truncates and the sum is taken on `usize`, so it wraps below zero. */
  function SectionIndexIn(min: ChunkIndex, max: ChunkIndex, p: Pos): (r: Result<nat>)
    requires Bounds(min, max)
    ensures r.Ok? <==> InChunks(min, max, ChunkOf(ColumnOf(p)))
    ensures r.Ok? ==> r.value < UsizeLimit
  {
    match ChunkIndexIn(min, max, ChunkOf(ColumnOf(p)))
    case Panic(reason) => Panic(reason)
    case Ok(c) => Ok((c * SectionsPerChunk + TruncDiv16(p.y) + 4) % UsizeLimit)
  }

  /** At levels 0 to 319 a position lies in section `y / 16 + 4` of its own chunk. */
  lemma SectionIndexOfLevel(min: ChunkIndex, max: ChunkIndex, p: Pos)
    requires Bounds(min, max) && ChunkCount(min, max) * SectionsPerChunk <= UsizeLimit
    requires InChunks(min, max, ChunkOf(ColumnOf(p))) && 0 <= p.y < 320
    ensures var c := ChunkIndexIn(min, max, ChunkOf(ColumnOf(p))).value;
      SectionIndexIn(min, max, p) == Ok(c * SectionsPerChunk + p.y / 16 + 4)
      && 4 <= p.y / 16 + 4 < SectionsPerChunk
  {
    ChunkIndexInjective(min, max, ChunkOf(ColumnOf(p)), ChunkOf(ColumnOf(p)));
    var c := ChunkIndexIn(min, max, ChunkOf(ColumnOf(p))).value;
    assert c * SectionsPerChunk + TruncDiv16(p.y) + 4 < UsizeLimit by {
      MulMonotone(SectionsPerChunk, c + 1, ChunkCount(min, max));
    }
  }

  /** `block_in_section_index`: x + 256 y + 16 z on the coordinates taken modulo 16. */
  function BlockInSectionIndex(p: Pos): (i: nat)
    ensures i < Palette.SectionVolume
  {
    p.x % 16 + (p.y % 16) * 256 + (p.z % 16) * 16
  }

  /** The position within its section of block `i`, as `save_chunk` computes it for a
      tile entity: `(i % 16, i / 256, i % 256 / 16)`. */
  function SectionOffset(i: nat): Pos {
    Pos(i % 16, i / 256, i % 256 / 16)
  }

  /** Two positions share a slot exactly when their coordinates agree modulo 16, and the
      offset `save_chunk` derives from a slot lies at that slot. */
  lemma BlockInSectionIndexExact(p: Pos, q: Pos, i: nat)
    requires i < Palette.SectionVolume
    ensures BlockInSectionIndex(p) == BlockInSectionIndex(q) <==>
      p.x % 16 == q.x % 16 && p.y % 16 == q.y % 16 && p.z % 16 == q.z % 16
    ensures BlockInSectionIndex(SectionOffset(i)) == i
    ensures 0 <= SectionOffset(i).y < 16 && 0 <= SectionOffset(i).z < 16
  {
    SlotsAgree(p, q);
    OffsetSlot(i);
  }

  lemma SlotsAgree(p: Pos, q: Pos)
    ensures BlockInSectionIndex(p) == BlockInSectionIndex(q) <==>
      p.x % 16 == q.x % 16 && p.y % 16 == q.y % 16 && p.z % 16 == q.z % 16
  {
    SlotDigits(p.x % 16, p.y % 16, p.z % 16);
    SlotDigits(q.x % 16, q.y % 16, q.z % 16);
  }

  lemma OffsetSlot(i: nat)
    requires i < Palette.SectionVolume
    ensures BlockInSectionIndex(SectionOffset(i)) == i
    ensures 0 <= SectionOffset(i).y < 16 && 0 <= SectionOffset(i).z < 16
    ensures SectionOffset(i).x + SectionOffset(i).y * 256 + SectionOffset(i).z * 16 == i
  {
    var k, r := i / 256, i % 256;
    var m, u := r / 16, r % 16;
    assert i == 16 * (16 * k + m) + u && 0 <= u < 16;
    assert i % 16 == u;
    assert 0 <= k < 16 && 0 <= m < 16;
    assert SectionOffset(i) == Pos(u, k, m);
    assert BlockInSectionIndex(Pos(u, k, m)) == u + k * 256 + m * 16;
  }

  /** A slot number x + 256 y + 16 z with x, y, z below 16 gives its three digits back. */
  lemma SlotDigits(x: int, y: int, z: int)
    requires 0 <= x < 16 && 0 <= y < 16 && 0 <= z < 16
    ensures (x + y * 256 + z * 16) % 16 == x
    ensures (x + y * 256 + z * 16) / 256 == y
    ensures (x + y * 256 + z * 16) % 256 / 16 == z
  {
    var n := x + y * 256 + z * 16;
    assert n == 16 * (z + 16 * y) + x;
    assert n == 256 * y + (16 * z + x) && 0 <= 16 * z + x < 256;
  }

  /** Truncating division puts levels -15 to -1 into the section of levels 0 to 15, at the
      slot of the level 16 higher: writing at level -1 overwrites level 15. */
  lemma NegativeLevelsAlias(min: ChunkIndex, max: ChunkIndex, p: Pos)
    requires Bounds(min, max) && -16 < p.y < 0
    ensures SectionIndexIn(min, max, p) == SectionIndexIn(min, max, Pos(p.x, p.y + 16, p.z))
    ensures BlockInSectionIndex(p) == BlockInSectionIndex(Pos(p.x, p.y + 16, p.z))
  {
    assert ColumnOf(p) == ColumnOf(Pos(p.x, p.y + 16, p.z));
    assert TruncDiv16(p.y) == 0 == TruncDiv16(p.y + 16);
    assert p.y % 16 == p.y + 16;
  }

  /** `column_index`: the chunk's first column plus x + 16 z on the coordinates taken
      modulo 16. */
  function ColumnIndexIn(min: ChunkIndex, max: ChunkIndex, col: Column): (r: Result<nat>)
    requires Bounds(min, max)
    ensures r.Ok? <==> InChunks(min, max, ChunkOf(col))
    ensures r.Ok? ==> r.value < ChunkCount(min, max) * ColumnsPerChunk
  {
    match ChunkIndexIn(min, max, ChunkOf(col))
    case Panic(reason) => Panic(reason)
    case Ok(c) =>
      ChunkIndexInjective(min, max, ChunkOf(col), ChunkOf(col));
      MulMonotone(ColumnsPerChunk, c + 1, ChunkCount(min, max));
      Ok(c * ColumnsPerChunk + (col.x % 16 + (col.z % 16) * 16))
  }

  /** Every loaded column has its own slot of the height and water maps. */
  lemma ColumnIndexInjective(min: ChunkIndex, max: ChunkIndex, a: Column, b: Column)
    requires Bounds(min, max) && InChunks(min, max, ChunkOf(a)) && InChunks(min, max, ChunkOf(b))
    ensures ColumnIndexIn(min, max, a).value < ChunkCount(min, max) * ColumnsPerChunk
    ensures ColumnIndexIn(min, max, a) == ColumnIndexIn(min, max, b) ==> a == b
  {
    ChunkIndexInjective(min, max, ChunkOf(a), ChunkOf(b));
    var ca := ChunkIndexIn(min, max, ChunkOf(a)).value;
    var cb := ChunkIndexIn(min, max, ChunkOf(b)).value;
    MulMonotone(ColumnsPerChunk, ca + 1, ChunkCount(min, max));
    if ColumnIndexIn(min, max, a) == ColumnIndexIn(min, max, b) {
      RowMajorUnique(ColumnsPerChunk, a.x % 16 + (a.z % 16) * 16, ca, b.x % 16 + (b.z % 16) * 16, cb);
    }
  }

  /** `WorldView::area`: every column of the loaded chunks. */
  function ViewArea(min: ChunkIndex, max: ChunkIndex): Rect {
    Rect(Column(min.x * 16, min.z * 16), Column(max.x * 16 + 15, max.z * 16 + 15))
  }

  /** `World::area`: the loaded columns shrunk by the load margin on every side. */
  function Area(min: ChunkIndex, max: ChunkIndex, margin: int): Rect {
    ViewArea(min, max).Shrink(margin)
  }

  /** The view area is exactly the columns of the loaded chunks, and `World::area` holds
      the columns whose whole margin-wide neighbourhood is loaded. */
  lemma AreaOfChunks(min: ChunkIndex, max: ChunkIndex, margin: nat, c: Column)
    ensures ViewArea(min, max).Contains(c) <==> InChunks(min, max, ChunkOf(c))
    ensures Area(min, max, margin).Contains(c) <==>
      ViewArea(min, max).Contains(Column(c.x - margin, c.z - margin))
      && ViewArea(min, max).Contains(Column(c.x + margin, c.z + margin))
  {
  }

  // ---------------------------------------------------------------------------------------
  // Sections

  /** `Section::default`: 4096 Air blocks. */
  function AllAir(): (r: seq<Block>)
    ensures |r| == Palette.SectionVolume && forall i :: 0 <= i < |r| ==> r[i] == Air
  {
    seq(Palette.SectionVolume, _ => Air)
  }

  /** Every instantiated section holds 4096 blocks. */
  predicate SectionsSized(secs: seq<Option<seq<Block>>>) {
    forall k :: 0 <= k < |secs| && secs[k].Some? ==> |secs[k].value| == Palette.SectionVolume
  }

  /** A section's blocks, all Air when it is not instantiated. */
  function SectionOrAir(o: Option<seq<Block>>): seq<Block> {
    match o
    case Some(blocks) => blocks
    case None => AllAir()
  }

  /** The block in slot `slot` of section `s`. */
  function BlockAt(secs: seq<Option<seq<Block>>>, s: nat, slot: nat): Block
    requires SectionsSized(secs) && s < |secs| && slot < Palette.SectionVolume
  {
    SectionOrAir(secs[s])[slot]
  }

  /** Section `s` instantiated (if it was not) and its slot `slot` set to `b`. */
  function Written(secs: seq<Option<seq<Block>>>, s: nat, slot: nat, b: Block): (r: seq<Option<seq<Block>>>)
    requires SectionsSized(secs) && s < |secs| && slot < Palette.SectionVolume
    ensures |r| == |secs| && SectionsSized(r)
  {
    secs[s := Some(SectionOrAir(secs[s])[slot := b])]
  }

  /** A write is read back at its slot and changes no other slot of any section; a
      section that was not instantiated reads as Air everywhere else. */
  lemma ReadAfterWrite(secs: seq<Option<seq<Block>>>, s: nat, slot: nat, b: Block, t: nat, u: nat)
    requires SectionsSized(secs) && s < |secs| && slot < Palette.SectionVolume
    requires t < |secs| && u < Palette.SectionVolume
    ensures BlockAt(Written(secs, s, slot, b), t, u) == if s == t && slot == u then b else BlockAt(secs, t, u)
    ensures t != s ==> Written(secs, s, slot, b)[t] == secs[t]
    ensures secs[s].None? && u != slot ==> Written(secs, s, slot, b)[s].value[u] == Air
  {
  }

  /** The `n` entries of chunk `k` in a vector that holds `n` per chunk. */
  function ChunkSlice<T>(s: seq<T>, k: nat, n: nat): (r: seq<T>)
    requires (k + 1) * n <= |s|
    ensures |r| == n
  {
    s[k * n..(k + 1) * n]
  }

  /** The vector with the entries of chunk `k` replaced by `v`. */
  function Spliced<T>(s: seq<T>, k: nat, n: nat, v: seq<T>): (r: seq<T>)
    requires (k + 1) * n <= |s| && |v| == n
    ensures |r| == |s|
    ensures forall i :: 0 <= i < n ==> r[k * n + i] == v[i]
    ensures forall i :: 0 <= i < |s| && !(k * n <= i < (k + 1) * n) ==> r[i] == s[i]
  {
    s[..k * n] + v + s[(k + 1) * n..]
  }

  /** Chunk `k` of a vector of `count` chunks of `n` entries lies inside it. */
  lemma ChunkFits(k: nat, count: nat, n: nat)
    requires k < count
    ensures (k + 1) * n <= count * n
  {
    MulMonotone(n, k + 1, count);
  }

  /** Every chunk of a constant vector is constant. */
  lemma SliceOfConstant<T>(v: T, count: nat, n: nat, j: nat)
    requires j < count
    ensures (j + 1) * n <= count * n
    ensures ChunkSlice(seq(count * n, _ => v), j, n) == seq(n, _ => v)
  {
    ChunkFits(j, count, n);
  }

  /** Every chunk of a vector of sections that are all full-sized is full-sized. */
  lemma SliceSized(secs: Sections, k: nat)
    requires SectionsSized(secs) && (k + 1) * SectionsPerChunk <= |secs|
    ensures SectionsSized(ChunkSlice(secs, k, SectionsPerChunk))
  {
    var r := ChunkSlice(secs, k, SectionsPerChunk);
    assert forall i :: 0 <= i < SectionsPerChunk ==> r[i] == secs[k * SectionsPerChunk + i];
  }

  /** Replacing chunk `k` puts `v` there and leaves every other chunk as it was. */
  lemma SplicedSlices<T>(s: seq<T>, k: nat, n: nat, v: seq<T>, j: nat)
    requires (k + 1) * n <= |s| && |v| == n && (j + 1) * n <= |s|
    ensures ChunkSlice(Spliced(s, k, n, v), k, n) == v
    ensures j != k ==> ChunkSlice(Spliced(s, k, n, v), j, n) == ChunkSlice(s, j, n)
  {
    var r := Spliced(s, k, n, v);
    var a, b := k * n, (k + 1) * n;
    MulStep(n, k);
    assert r[a..b] == v by {
      forall i | 0 <= i < n ensures r[a..b][i] == v[i] {
        assert r[a + i] == v[i];
      }
    }
    if j != k {
      var c, d := j * n, (j + 1) * n;
      MulStep(n, j);
      if j < k {
        MulMonotone(n, j + 1, k);
        assert n * (j + 1) == d && n * k == a;
      } else {
        MulMonotone(n, k + 1, j);
        assert n * (k + 1) == b && n * j == c;
      }
      SpliceOutside(s, a, b, v, c, d);
    }
  }

  /** The next multiple of `n`. */
  lemma MulStep(n: nat, k: nat)
    ensures 0 <= k * n && (k + 1) * n == k * n + n
  {
  }

  /** A splice between `a` and `b` leaves a disjoint stretch `c..d` as it was. */
  lemma SpliceOutside<T>(s: seq<T>, a: nat, b: nat, v: seq<T>, c: nat, d: nat)
    requires a <= b <= |s| && |v| == b - a && c <= d <= |s| && (d <= a || b <= c)
    ensures (s[..a] + v + s[b..])[c..d] == s[c..d]
  {
    var r := s[..a] + v + s[b..];
    forall i | c <= i < d ensures r[i] == s[i] {
    }
  }

  /** A chunk strictly inside the loaded rectangle. */
  predicate Interior(min: ChunkIndex, max: ChunkIndex, c: ChunkIndex) {
    min.x < c.x < max.x && min.z < c.z < max.z
  }

  /** The indices below `n` of the interior chunks, in increasing order: the chunks `save`
      writes. */
  function Interiors(min: ChunkIndex, max: ChunkIndex, n: nat): (r: seq<nat>)
    requires Bounds(min, max)
    ensures forall k: nat :: k in r <==> k < n && Interior(min, max, ChunkAt(min, max, k))
    ensures forall i :: 0 <= i < |r| ==> r[i] < n
    ensures forall i, j :: 0 <= i < j < |r| ==> r[i] < r[j]
  {
    if n == 0 then []
    else Interiors(min, max, n - 1) + if Interior(min, max, ChunkAt(min, max, n - 1)) then [n - 1] else []
  }

  /** Every chunk strictly inside the rectangle is saved, under its own index. */
  lemma InteriorSaved(min: ChunkIndex, max: ChunkIndex, c: ChunkIndex)
    requires Bounds(min, max) && Interior(min, max, c)
    ensures InChunks(min, max, c)
    ensures ChunkIndexIn(min, max, c).value in Interiors(min, max, ChunkCount(min, max))
    ensures ChunkAt(min, max, ChunkIndexIn(min, max, c).value) == c
  {
    var k := ChunkIndexIn(min, max, c).value;
    ChunkIndexInjective(min, max, c, c);
    ChunkIndexOnto(min, max, k);
    ChunkIndexInjective(min, max, c, ChunkAt(min, max, k));
  }

  /** A chunk as `save_chunk` writes it: its position, the records of its instantiated
      sections, and the tile entities of their blocks. */
  datatype SavedChunk = SavedChunk(chunk: ChunkIndex, sections: seq<SectionRecord>, tileEntities: seq<Compound>)

  ghost predicate SavesChunk(saved: SavedChunk, c: ChunkIndex, secs: Sections)
    requires |secs| == SectionsPerChunk && SectionsSized(secs)
  {
    && saved.chunk == c
    && RecordsFor(saved.sections, secs, SomeSlots(secs, SectionsPerChunk))
    && saved.tileEntities == ChunkTileEntities(secs, c, SectionsPerChunk)
  }

  /** The sections of a chunk before it is loaded: none instantiated. */
  function NoSections(): (r: Sections)
    ensures |r| == SectionsPerChunk && SectionsSized(r)
  {
    seq(SectionsPerChunk, _ => None)
  }

  /** The maps of a chunk before it is loaded: height 0 and no water in every column. */
  function NoMaps(): (r: (seq<int>, seq<Option<int>>))
    ensures |r.0| == ColumnsPerChunk && |r.1| == ColumnsPerChunk
  {
    (seq(ColumnsPerChunk, _ => 0), seq(ColumnsPerChunk, _ => None))
  }

  /** A chunk loaded from its records into no sections, and its scanned maps. */
  ghost function Loaded(recs: seq<SectionRecord>): (r: (Sections, (seq<int>, seq<Option<int>>)))
    requires LoadRecords(NoSections(), recs).Ok?
  {
    var secs := LoadRecords(NoSections(), recs).value;
    (secs, ScanMaps(secs, NoMaps().0, NoMaps().1))
  }

  /** The world: the loaded chunk rectangle, its sections (24 per chunk, chunks in the
      order of `chunk_index`), and a height and optional water level per column. */
  class World {
    var chunkMin: ChunkIndex
    var chunkMax: ChunkIndex
    var sections: seq<Option<seq<Block>>>
    var heightmap: seq<int>
    var watermap: seq<Option<int>>

    ghost predicate Valid()
      reads this
    {
      && Bounds(chunkMin, chunkMax)
      && |sections| == ChunkCount(chunkMin, chunkMax) * SectionsPerChunk
      && |heightmap| == ChunkCount(chunkMin, chunkMax) * ColumnsPerChunk
      && |watermap| == ChunkCount(chunkMin, chunkMax) * ColumnsPerChunk
      && SectionsSized(sections)
    }

    /** The state `World::new` starts from before any chunk is read: no section, height 0
        and no water in every column. */
    constructor (min: ChunkIndex, max: ChunkIndex)
      requires Bounds(min, max)
      ensures Valid() && chunkMin == min && chunkMax == max
      ensures sections == seq(ChunkCount(min, max) * SectionsPerChunk, _ => None)
      ensures heightmap == seq(ChunkCount(min, max) * ColumnsPerChunk, _ => 0)
      ensures watermap == seq(ChunkCount(min, max) * ColumnsPerChunk, _ => None)
    {
      chunkMin := min;
      chunkMax := max;
      sections := seq(ChunkCount(min, max) * SectionsPerChunk, _ => None);
      heightmap := seq(ChunkCount(min, max) * ColumnsPerChunk, _ => 0);
      watermap := seq(ChunkCount(min, max) * ColumnsPerChunk, _ => None);
    }

    /** The section and slot of a position: `section_index` (which panics outside the
        loaded chunks) and `block_in_section_index`; indexing the section vector panics
        when the wrapped index is past its end. */
    function Locate(pos: Pos): (r: Result<(nat, nat)>)
      reads this
      requires Valid()
      ensures r.Ok? <==> SectionIndexIn(chunkMin, chunkMax, pos).Ok? && SectionIndexIn(chunkMin, chunkMax, pos).value < |sections|
      ensures r.Ok? ==> r.value == (SectionIndexIn(chunkMin, chunkMax, pos).value, BlockInSectionIndex(pos))
    {
      match SectionIndexIn(chunkMin, chunkMax, pos)
      case Panic(reason) => Panic(reason)
      case Ok(s) =>
        if s < |sections| then Ok((s, BlockInSectionIndex(pos)))
        else Panic("index out of bounds: sections")
    }

    /** `get`: the block at a position, Air in a section that was never written. */
    function Get(pos: Pos): (r: Result<Block>)
      reads this
      requires Valid()
      ensures r.Ok? <==> Locate(pos).Ok?
      ensures r.Ok? && sections[Locate(pos).value.0].None? ==> r.value == Air
      ensures r.Ok? && sections[Locate(pos).value.0].Some? ==>
        r.value == sections[Locate(pos).value.0].value[Locate(pos).value.1]
    {
      match Locate(pos)
      case Panic(reason) => Panic(reason)
      case Ok(loc) => Ok(BlockAt(sections, loc.0, loc.1))
    }

    /** `get_mut`: locates the block and instantiates its section as all Air if needed;
        nothing else changes. */
    method GetMut(pos: Pos) returns (r: Result<(nat, nat)>)
      requires Valid()
      modifies this
      ensures Valid()
      ensures chunkMin == old(chunkMin) && chunkMax == old(chunkMax)
      ensures heightmap == old(heightmap) && watermap == old(watermap)
      ensures r == old(Locate(pos))
      ensures r.Ok? ==> sections == old(sections)[r.value.0 := Some(SectionOrAir(old(sections)[r.value.0]))]
      ensures r.Panic? ==> sections == old(sections)
    {
      r := Locate(pos);
      if r.Ok? {
        var s := r.value.0;
        sections := sections[s := Some(SectionOrAir(sections[s]))];
      }
    }

    /** `set`: `*get_mut(pos) = block`. */
    method Set(pos: Pos, block: Block) returns (r: Result<()>)
      requires Valid()
      modifies this
      ensures Valid()
      ensures chunkMin == old(chunkMin) && chunkMax == old(chunkMax)
      ensures heightmap == old(heightmap) && watermap == old(watermap)
      ensures r.Ok? <==> old(Locate(pos)).Ok?
      ensures r.Ok? ==> sections == Written(old(sections), old(Locate(pos)).value.0, old(Locate(pos)).value.1, block)
      ensures r.Panic? ==> sections == old(sections)
    {
      var loc := GetMut(pos);
      if loc.Panic? {
        return Panic(loc.reason);
      }
      var (s, slot) := loc.value;
      sections := sections[s := Some(sections[s].value[slot := block])];
      r := Ok(());
    }

    /** `set_if_not_solid`: writes only over a block that is not solid, but instantiates
        the section either way. */
    method SetIfNotSolid(pos: Pos, block: Block) returns (r: Result<()>)
      requires Valid()
      modifies this
      ensures Valid()
      ensures chunkMin == old(chunkMin) && chunkMax == old(chunkMax)
      ensures heightmap == old(heightmap) && watermap == old(watermap)
      ensures r.Ok? <==> old(Locate(pos)).Ok?
      ensures r.Ok? ==>
        var (s, slot) := old(Locate(pos)).value;
        sections == if Solid(old(Get(pos)).value) then old(sections)[s := Some(SectionOrAir(old(sections)[s]))]
                    else Written(old(sections), s, slot, block)
      ensures r.Panic? ==> sections == old(sections)
    {
      var loc := GetMut(pos);
      if loc.Panic? {
        return Panic(loc.reason);
      }
      var (s, slot) := loc.value;
      if !Solid(sections[s].value[slot]) {
        sections := sections[s := Some(sections[s].value[slot := block])];
      }
      r := Ok(());
    }

    /** The sections of chunk `k`. */
    ghost function ChunkSections(k: nat): (r: Sections)
      reads this
      requires Valid() && k < ChunkCount(chunkMin, chunkMax)
      ensures |r| == SectionsPerChunk && SectionsSized(r)
    {
      ChunkFits(k, ChunkCount(chunkMin, chunkMax), SectionsPerChunk);
      SliceSized(sections, k);
      ChunkSlice(sections, k, SectionsPerChunk)
    }

    /** The height and water maps of chunk `k`. */
    ghost function ChunkMaps(k: nat): (r: (seq<int>, seq<Option<int>>))
      reads this
      requires Valid() && k < ChunkCount(chunkMin, chunkMax)
      ensures |r.0| == ColumnsPerChunk && |r.1| == ColumnsPerChunk
    {
      ChunkFits(k, ChunkCount(chunkMin, chunkMax), ColumnsPerChunk);
      (ChunkSlice(heightmap, k, ColumnsPerChunk), ChunkSlice(watermap, k, ColumnsPerChunk))
    }

    /** `load_chunk` on chunk `k`'s sections and maps: the section records are loaded in
        order, then every column of the chunk is scanned. Nothing outside chunk `k`
        changes. */
    method LoadChunk(k: nat, recs: seq<SectionRecord>) returns (r: Result<()>)
      requires Valid() && k < ChunkCount(chunkMin, chunkMax)
      modifies this
      ensures Valid() && chunkMin == old(chunkMin) && chunkMax == old(chunkMax)
      ensures r.Ok? <==> LoadRecords(old(ChunkSections(k)), recs).Ok?
      ensures r.Ok? ==>
        var secs := LoadRecords(old(ChunkSections(k)), recs).value;
        var maps := ScanMaps(secs, old(ChunkMaps(k)).0, old(ChunkMaps(k)).1);
        && sections == Spliced(old(sections), k, SectionsPerChunk, secs)
        && heightmap == Spliced(old(heightmap), k, ColumnsPerChunk, maps.0)
        && watermap == Spliced(old(watermap), k, ColumnsPerChunk, maps.1)
        && ChunkSections(k) == secs && ChunkMaps(k) == maps
      ensures forall j :: 0 <= j < ChunkCount(chunkMin, chunkMax) && j != k ==>
        ChunkSections(j) == old(ChunkSections(j)) && ChunkMaps(j) == old(ChunkMaps(j))
    {
      var count := ChunkCount(chunkMin, chunkMax);
      ChunkFits(k, count, SectionsPerChunk);
      ChunkFits(k, count, ColumnsPerChunk);
      SliceSized(sections, k);
      var loaded := LoadSections(ChunkSlice(sections, k, SectionsPerChunk), recs);
      if loaded.Panic? {
        return Panic(loaded.reason);
      }
      var secs := loaded.value;
      var heights, waters := ScanChunk(secs, ChunkSlice(heightmap, k, ColumnsPerChunk), ChunkSlice(watermap, k, ColumnsPerChunk));
      ghost var before, beforeHeights, beforeWaters := sections, heightmap, watermap;
      sections := Spliced(sections, k, SectionsPerChunk, secs);
      heightmap := Spliced(heightmap, k, ColumnsPerChunk, heights);
      watermap := Spliced(watermap, k, ColumnsPerChunk, waters);
      forall j | 0 <= j < count
        ensures ChunkSections(j) == if j == k then secs else ChunkSlice(before, j, SectionsPerChunk)
        ensures ChunkMaps(j) == if j == k then (heights, waters)
                                else (ChunkSlice(beforeHeights, j, ColumnsPerChunk), ChunkSlice(beforeWaters, j, ColumnsPerChunk))
      {
        ChunkFits(j, count, SectionsPerChunk);
        ChunkFits(j, count, ColumnsPerChunk);
        SplicedSlices(before, k, SectionsPerChunk, secs, j);
        SplicedSlices(beforeHeights, k, ColumnsPerChunk, heights, j);
        SplicedSlices(beforeWaters, k, ColumnsPerChunk, waters, j);
      }
      r := Ok(());
    }

    /** `World::new` once the chunk rectangle is known: every chunk is loaded from its
        section records (`chunks[k]` for the chunk at index `k`), into no sections and maps
        of height 0 and no water. The source loads chunks in parallel; each touches only
        its own slices, so loading them in index order gives the same world. */
    static method New(min: ChunkIndex, max: ChunkIndex, chunks: seq<seq<SectionRecord>>) returns (r: Result<World>)
      requires Bounds(min, max) && |chunks| == ChunkCount(min, max)
      ensures r.Ok? <==> forall k :: 0 <= k < |chunks| ==> LoadRecords(NoSections(), chunks[k]).Ok?
      ensures r.Ok? ==> fresh(r.value) && r.value.Valid() && r.value.chunkMin == min && r.value.chunkMax == max
      ensures r.Ok? ==> forall k :: 0 <= k < |chunks| ==> r.value.ChunkSections(k) == Loaded(chunks[k]).0 && r.value.ChunkMaps(k) == Loaded(chunks[k]).1
    {
      var w := new World(min, max);
      var count := ChunkCount(min, max);
      forall j | 0 <= j < count
        ensures w.ChunkSections(j) == NoSections() && w.ChunkMaps(j) == NoMaps()
      {
        SliceOfConstant<Option<seq<Block>>>(None, count, SectionsPerChunk, j);
        SliceOfConstant<int>(0, count, ColumnsPerChunk, j);
        SliceOfConstant<Option<int>>(None, count, ColumnsPerChunk, j);
      }
      for k := 0 to count
        invariant fresh(w) && w.Valid() && w.chunkMin == min && w.chunkMax == max
        invariant w.LoadedBelow(chunks, k) && w.ClearFrom(k)
      {
        var loaded := w.LoadNext(k, chunks);
        if loaded.Panic? {
          return Panic(loaded.reason);
        }
      }
      r := Ok(w);
    }

    /** The chunks below `k` hold what their records load to. */
    ghost predicate LoadedBelow(chunks: seq<seq<SectionRecord>>, k: nat)
      reads this
      requires Valid() && |chunks| == ChunkCount(chunkMin, chunkMax) && k <= |chunks|
    {
      forall j :: 0 <= j < k ==>
        && LoadRecords(NoSections(), chunks[j]).Ok?
        && ChunkSections(j) == Loaded(chunks[j]).0 && ChunkMaps(j) == Loaded(chunks[j]).1
    }

    /** The chunks from `k` on are still as `World::new` starts them. */
    ghost predicate ClearFrom(k: nat)
      reads this
      requires Valid()
    {
      forall j :: k <= j < ChunkCount(chunkMin, chunkMax) ==> ChunkSections(j) == NoSections() && ChunkMaps(j) == NoMaps()
    }

    /** One turn of the loading loop of `World::new`: chunk `k`, still empty, is loaded
        from its records. */
    method LoadNext(k: nat, chunks: seq<seq<SectionRecord>>) returns (r: Result<()>)
      requires Valid() && |chunks| == ChunkCount(chunkMin, chunkMax) && k < |chunks|
      requires LoadedBelow(chunks, k) && ClearFrom(k)
      modifies this
      ensures Valid() && chunkMin == old(chunkMin) && chunkMax == old(chunkMax)
      ensures r.Ok? <==> LoadRecords(NoSections(), chunks[k]).Ok?
      ensures r.Ok? ==> LoadedBelow(chunks, k + 1) && ClearFrom(k + 1)
    {
      r := LoadChunk(k, chunks[k]);
    }

    /** `out` is what `save` writes for the interior chunks below index `n`. */
    ghost predicate SavedBelow(out: seq<SavedChunk>, n: nat)
      reads this
      requires Valid() && n <= ChunkCount(chunkMin, chunkMax)
    {
      var ks := Interiors(chunkMin, chunkMax, n);
      && |out| == |ks|
      && forall i :: 0 <= i < |ks| ==> SavesChunk(out[i], ChunkAt(chunkMin, chunkMax, ks[i]), ChunkSections(ks[i]))
    }

    /** Every interior chunk below index `n` can be written. */
    ghost predicate SerialisableBelow(n: nat)
      reads this
      requires Valid() && n <= ChunkCount(chunkMin, chunkMax)
    {
      var ks := Interiors(chunkMin, chunkMax, n);
      forall i :: 0 <= i < |ks| ==> ChunkSerialisable(ChunkSections(ks[i]), SectionsPerChunk)
    }

    /** The chunk part of `save`: the chunks are visited in `chunk_index` order, and each
        chunk strictly inside the loaded rectangle is encoded by `save_chunk`; the outermost
        ring is not written. Panics when a block has no block state. */
    method Save() returns (r: Result<seq<SavedChunk>>)
      requires Valid()
      ensures r.Ok? <==> SerialisableBelow(ChunkCount(chunkMin, chunkMax))
      ensures r.Ok? ==> SavedBelow(r.value, ChunkCount(chunkMin, chunkMax))
    {
      var count := ChunkCount(chunkMin, chunkMax);
      var out: seq<SavedChunk> := [];
      for k := 0 to count
        invariant SavedBelow(out, k) && SerialisableBelow(k)
      {
        var next := SaveChunkAt(k, out);
        if next.Panic? {
          return Panic(next.reason);
        }
        out := next.value;
      }
      r := Ok(out);
    }

    /** One turn of the chunk loop of `save`: chunk `k` is skipped on the outermost ring and
        otherwise written after those before it. */
    method SaveChunkAt(k: nat, out: seq<SavedChunk>) returns (r: Result<seq<SavedChunk>>)
      requires Valid() && k < ChunkCount(chunkMin, chunkMax)
      requires SavedBelow(out, k) && SerialisableBelow(k)
      ensures r.Ok? ==> SavedBelow(r.value, k + 1) && SerialisableBelow(k + 1)
      ensures r.Panic? ==> !SerialisableBelow(ChunkCount(chunkMin, chunkMax))
    {
      var count := ChunkCount(chunkMin, chunkMax);
      var c := ChunkAt(chunkMin, chunkMax, k);
      if !Interior(chunkMin, chunkMax, c) {
        assert Interiors(chunkMin, chunkMax, k + 1) == Interiors(chunkMin, chunkMax, k);
        return Ok(out);
      }
      ChunkFits(k, count, SectionsPerChunk);
      SliceSized(sections, k);
      var saved := SaveSections(ChunkSlice(sections, k, SectionsPerChunk), c);
      assert Interiors(chunkMin, chunkMax, k + 1) == Interiors(chunkMin, chunkMax, k) + [k];
      if saved.Panic? {
        SerialisableStops(k, count);
        return Panic(saved.reason);
      }
      r := Ok(out + [SavedChunk(c, saved.value.0, saved.value.1)]);
    }

    /** A chunk that cannot be written among the first `n + 1` stops the whole save. */
    lemma SerialisableStops(n: nat, m: nat)
      requires Valid() && n < m <= ChunkCount(chunkMin, chunkMax)
      requires !SerialisableBelow(n + 1)
      ensures !SerialisableBelow(m)
    {
      var ks := Interiors(chunkMin, chunkMax, n + 1);
      var i :| 0 <= i < |ks| && !ChunkSerialisable(ChunkSections(ks[i]), SectionsPerChunk);
      assert ks[i] in Interiors(chunkMin, chunkMax, m);
    }

    /** `height`: panics outside the loaded chunks. */
    function Height(col: Column): (r: Result<int>)
      reads this
      requires Valid()
      ensures r.Ok? <==> InChunks(chunkMin, chunkMax, ChunkOf(col))
      ensures r.Ok? ==> r.value == heightmap[ColumnIndexIn(chunkMin, chunkMax, col).value]
    {
      match ColumnIndexIn(chunkMin, chunkMax, col)
      case Panic(reason) => Panic(reason)
      case Ok(i) => Ok(heightmap[i])
    }

    /** `water_level`: panics outside the loaded chunks. */
    function WaterLevel(col: Column): (r: Result<Option<int>>)
      reads this
      requires Valid()
      ensures r.Ok? <==> InChunks(chunkMin, chunkMax, ChunkOf(col))
      ensures r.Ok? ==> r.value == watermap[ColumnIndexIn(chunkMin, chunkMax, col).value]
    {
      match ColumnIndexIn(chunkMin, chunkMax, col)
      case Panic(reason) => Panic(reason)
      case Ok(i) => Ok(watermap[i])
    }
  }

  /** Inside the loaded chunks at levels 0 to 319, `get` never panics and reads the
      position's own section of its own chunk. */
  lemma GetInside(w: World, p: Pos)
    requires w.Valid() && ChunkCount(w.chunkMin, w.chunkMax) * SectionsPerChunk <= UsizeLimit
    requires InChunks(w.chunkMin, w.chunkMax, ChunkOf(ColumnOf(p))) && 0 <= p.y < 320
    ensures w.Get(p).Ok?
    ensures w.Locate(p).value.0 ==
      ChunkIndexIn(w.chunkMin, w.chunkMax, ChunkOf(ColumnOf(p))).value * SectionsPerChunk + p.y / 16 + 4
  {
    SectionIndexOfLevel(w.chunkMin, w.chunkMax, p);
    var c := ChunkIndexIn(w.chunkMin, w.chunkMax, ChunkOf(ColumnOf(p))).value;
    ChunkIndexInjective(w.chunkMin, w.chunkMax, ChunkOf(ColumnOf(p)), ChunkOf(ColumnOf(p)));
    MulMonotone(SectionsPerChunk, c + 1, ChunkCount(w.chunkMin, w.chunkMax));
  }

  // ---------------------------------------------------------------------------------------
  // Height and water scan of a chunk (the end of `load_chunk`)

  /** A block that ends the scan of a column: solid and not a log. */
  predicate Stopper(b: Block) {
    Solid(b) && !b.Log?
  }

  /** The blocks of section `k` of a chunk in column (x, z), from the top down, each with
      its level `(k - 4) * 16 + y`, for the `y` levels below `top`. */
  function SectionTopDown(blocks: seq<Block>, x: nat, z: nat, k: int, top: nat): (r: seq<(int, Block)>)
    requires |blocks| == Palette.SectionVolume && x < 16 && z < 16 && top <= 16
    ensures |r| == top
    ensures forall j :: 0 <= j < top ==> r[j] == ((k - 4) * 16 + top - 1 - j, blocks[x + z * 16 + (top - 1 - j) * 256])
  {
    if top == 0 then []
    else [((k - 4) * 16 + top - 1, blocks[x + z * 16 + (top - 1) * 256])] + SectionTopDown(blocks, x, z, k, top - 1)
  }

  /** The blocks of column (x, z) of the chunk's sections below section `k`, from the top
      down, skipping sections that were never instantiated. */
  function ColumnTopDown(secs: seq<Option<seq<Block>>>, x: nat, z: nat, k: nat): seq<(int, Block)>
    requires SectionsSized(secs) && x < 16 && z < 16 && k <= |secs|
  {
    if k == 0 then []
    else
      (match secs[k - 1]
       case None => []
       case Some(blocks) => SectionTopDown(blocks, x, z, k - 1, 16))
      + ColumnTopDown(secs, x, z, k - 1)
  }

  /** Scanning a top-down column: the first stopper sets the height (its level minus 64,
      as the source computes `(section_index - 4) * 16 + y`); a water block above it sets
      the water level (its level) unless one is already set. */
  function Scan(column: seq<(int, Block)>, height: int, water: Option<int>): (int, Option<int>)
  {
    if column == [] then (height, water)
    else if Stopper(column[0].1) then (column[0].0 - 64, water)
    else Scan(column[1..], height, if column[0].1.Water? && water.None? then Some(column[0].0) else water)
  }

  /** Index of the first stopper, or the length when there is none. */
  function FirstStop(column: seq<(int, Block)>): (i: nat)
    ensures i <= |column|
    ensures i < |column| ==> Stopper(column[i].1)
    ensures forall j :: 0 <= j < i ==> !Stopper(column[j].1)
  {
    if column == [] then 0
    else if Stopper(column[0].1) then 0
    else 1 + FirstStop(column[1..])
  }

  /** The level of the first water block among the first `n` entries, if any. */
  function FirstWater(column: seq<(int, Block)>, n: nat): (r: Option<int>)
    requires n <= |column|
    ensures r.Some? <==> exists j :: 0 <= j < n && column[j].1.Water?
    ensures r.Some? ==> exists j ::
      0 <= j < n && column[j].1.Water? && r.value == column[j].0 && (forall i :: 0 <= i < j ==> !column[i].1.Water?)
  {
    if n == 0 then None
    else if column[0].1.Water? then Some(column[0].0)
    else
      var r := FirstWater(column[1..], n - 1);
      assert forall j :: 1 <= j < n ==> column[j] == column[1..][j - 1];
      r
  }

  /** The scan's height is the level of the topmost stopper minus 64, or the old height
      when the column has none; no block above the topmost stopper matters to it. */
  lemma {:induction false} ScanHeight(column: seq<(int, Block)>, height: int, water: Option<int>)
    ensures Scan(column, height, water).0 ==
      if FirstStop(column) < |column| then column[FirstStop(column)].0 - 64 else height
  {
    if column != [] && !Stopper(column[0].1) {
      ScanHeight(column[1..], height, if column[0].1.Water? && water.None? then Some(column[0].0) else water);
    }
  }

  /** The scan keeps a water level already set; otherwise it records the topmost water
      block above the topmost stopper, or none. */
  lemma {:induction false} ScanWater(column: seq<(int, Block)>, height: int, water: Option<int>)
    ensures Scan(column, height, water).1 ==
      if water.Some? then water else FirstWater(column, FirstStop(column))
  {
    if column != [] && !Stopper(column[0].1) {
      var water' := if column[0].1.Water? && water.None? then Some(column[0].0) else water;
      ScanWater(column[1..], height, water');
      if water.None? && !column[0].1.Water? {
        FirstWaterTail(column, FirstStop(column));
      }
    }
  }

  lemma FirstWaterTail(column: seq<(int, Block)>, n: nat)
    requires 0 < n <= |column| && !column[0].1.Water?
    ensures FirstWater(column, n) == FirstWater(column[1..], n - 1)
  {
  }

  /** One step of the scan. */
  lemma ScanCons(e: (int, Block), rest: seq<(int, Block)>, height: int, water: Option<int>)
    ensures Scan([e] + rest, height, water) ==
      if Stopper(e.1) then (e.0 - 64, water)
      else Scan(rest, height, if e.1.Water? && water.None? then Some(e.0) else water)
  {
    assert ([e] + rest)[1..] == rest;
  }

  /** The column loop of `load_chunk`: sections from the top down, skipping absent ones,
      and within a section levels from the top down, stopping the column at the first
      stopper. */
  method ScanColumn(secs: seq<Option<seq<Block>>>, x: nat, z: nat, height0: int, water0: Option<int>)
    returns (height: int, water: Option<int>)
    requires |secs| == SectionsPerChunk && SectionsSized(secs) && x < 16 && z < 16
    ensures (height, water) == Scan(ColumnTopDown(secs, x, z, SectionsPerChunk), height0, water0)
  {
    height, water := height0, water0;
    ghost var target := Scan(ColumnTopDown(secs, x, z, SectionsPerChunk), height0, water0);
    var sectionIndex := 20;
    while sectionIndex > -4
      invariant -4 <= sectionIndex <= 20
      invariant Scan(ColumnTopDown(secs, x, z, sectionIndex + 4), height, water) == target
      decreases sectionIndex + 4
    {
      sectionIndex := sectionIndex - 1;
      var k := sectionIndex + 4;
      ghost var below := ColumnTopDown(secs, x, z, k);
      if secs[k].Some? {
        var blocks := secs[k].value;
        assert ColumnTopDown(secs, x, z, k + 1) == SectionTopDown(blocks, x, z, k, 16) + below;
        var stopped;
        height, water, stopped := ScanSection(blocks, x, z, sectionIndex, below, height, water);
        if stopped {
          return;
        }
      } else {
        assert ColumnTopDown(secs, x, z, k + 1) == below;
      }
    }
  }

  /** One section of the column loop: its levels from the top down, above the levels
      `below` of the sections under it. `stopped` tells whether a stopper ended the
      column, and then the scan is done; otherwise it goes on below. */
  method ScanSection(blocks: seq<Block>, x: nat, z: nat, sectionIndex: int, ghost below: seq<(int, Block)>,
                     height0: int, water0: Option<int>)
    returns (height: int, water: Option<int>, stopped: bool)
    requires |blocks| == Palette.SectionVolume && x < 16 && z < 16
    ensures stopped ==> (height, water) == Scan(SectionTopDown(blocks, x, z, sectionIndex + 4, 16) + below, height0, water0)
    ensures !stopped ==> Scan(below, height, water) == Scan(SectionTopDown(blocks, x, z, sectionIndex + 4, 16) + below, height0, water0)
  {
    var k := sectionIndex + 4;
    height, water, stopped := height0, water0, false;
    ghost var target := Scan(SectionTopDown(blocks, x, z, k, 16) + below, height0, water0);
    var y := 16;
    while y > 0
      invariant 0 <= y <= 16
      invariant Scan(SectionTopDown(blocks, x, z, k, y) + below, height, water) == target
      decreases y
    {
      y := y - 1;
      var block := blocks[x + z * 16 + y * 256];
      ghost var e := (sectionIndex * 16 + y, block);
      assert SectionTopDown(blocks, x, z, k, y + 1) + below == [e] + (SectionTopDown(blocks, x, z, k, y) + below);
      ScanCons(e, SectionTopDown(blocks, x, z, k, y) + below, height, water);
      if Stopper(block) {
        height := (sectionIndex - 4) * 16 + y;
        stopped := true;
        return;
      } else if block.Water? {
        if water.None? {
          water := Some(sectionIndex * 16 + y);
        }
      }
    }
    assert SectionTopDown(blocks, x, z, k, 0) + below == below;
  }

  /** A chunk's height and water maps after the scan: slot `x + 16 z` holds the scan of
      column (x, z), started from the slot's old values. */
  ghost function ScanMaps(secs: Sections, hs: seq<int>, ws: seq<Option<int>>): (r: (seq<int>, seq<Option<int>>))
    requires SectionsSized(secs) && |hs| == ColumnsPerChunk && |ws| == ColumnsPerChunk
    ensures |r.0| == ColumnsPerChunk && |r.1| == ColumnsPerChunk
  {
    (seq(ColumnsPerChunk, i requires 0 <= i < ColumnsPerChunk => Scan(ColumnTopDown(secs, i % 16, i / 16, |secs|), hs[i], ws[i]).0),
     seq(ColumnsPerChunk, i requires 0 <= i < ColumnsPerChunk => Scan(ColumnTopDown(secs, i % 16, i / 16, |secs|), hs[i], ws[i]).1))
  }

  /** Slot `i` of the chunk's maps holds the scan of its column (x, z) = (i % 16, i / 16)
      started from the slot's old values. */
  ghost predicate ScannedAt(secs: seq<Option<seq<Block>>>, hs: seq<int>, ws: seq<Option<int>>,
                            hs0: seq<int>, ws0: seq<Option<int>>, i: nat)
    requires SectionsSized(secs) && i < |hs| && i < |ws| && i < |hs0| && i < |ws0| && i < ColumnsPerChunk
  {
    (hs[i], ws[i]) == Scan(ColumnTopDown(secs, i % 16, i / 16, |secs|), hs0[i], ws0[i])
  }

  /** The map loops of `load_chunk`: every column (x, z) of the chunk is scanned, and its
      height and water level written at slot `x + 16 z`. */
  method ScanChunk(secs: seq<Option<seq<Block>>>, heights: seq<int>, waters: seq<Option<int>>)
    returns (heights': seq<int>, waters': seq<Option<int>>)
    requires |secs| == SectionsPerChunk && SectionsSized(secs)
    requires |heights| == ColumnsPerChunk && |waters| == ColumnsPerChunk
    ensures (heights', waters') == ScanMaps(secs, heights, waters)
  {
    heights', waters' := heights, waters;
    for x := 0 to 16
      invariant |heights'| == ColumnsPerChunk && |waters'| == ColumnsPerChunk
      invariant forall i :: 0 <= i < ColumnsPerChunk ==>
        if i % 16 < x then ScannedAt(secs, heights', waters', heights, waters, i)
        else heights'[i] == heights[i] && waters'[i] == waters[i]
    {
      for z := 0 to 16
        invariant |heights'| == ColumnsPerChunk && |waters'| == ColumnsPerChunk
        invariant forall i :: 0 <= i < ColumnsPerChunk ==>
          if i % 16 < x || (i % 16 == x && i / 16 < z) then ScannedAt(secs, heights', waters', heights, waters, i)
          else heights'[i] == heights[i] && waters'[i] == waters[i]
      {
        var slot := x + z * 16;
        assert slot % 16 == x && slot / 16 == z;
        var h, w := ScanColumn(secs, x, z, heights'[slot], waters'[slot]);
        heights' := heights'[slot := h];
        waters' := waters'[slot := w];
      }
    }
    assert heights' == ScanMaps(secs, heights, waters).0;
    assert waters' == ScanMaps(secs, heights, waters).1;
  }

  // ---------------------------------------------------------------------------------------
  // Chunk loading

  /** The 24 sections of one chunk, lowest first. */
  type Sections = seq<Option<seq<Block>>>

  /** A section entry of a chunk as `load_chunk` reads it: the `Y` byte, the compounds of
      `block_states.palette`, and `block_states.data` if present, each long taken as its
      64-bit pattern (the `as u64` cast). */
  datatype SectionRecord = SectionRecord(y: i8, palette: seq<Compound>, data: Option<seq<nat>>)

  /** The palette as blocks: `Block::from_nbt` on every entry, panicking at the first entry
      that has no name or bad properties. */
  function DecodePalette(p: seq<Compound>): (r: Result<seq<Block>>)
    ensures r.Ok? <==> forall i :: 0 <= i < |p| ==> FromNbt(p[i]).Ok?
    ensures r.Ok? ==> |r.value| == |p| && forall i :: 0 <= i < |p| ==> r.value[i] == FromNbt(p[i]).value
  {
    if p == [] then Ok([])
    else
      match FromNbt(p[0])
      case Panic(reason) => Panic(reason)
      case Ok(b) =>
        match DecodePalette(p[1..])
        case Panic(reason) => Panic(reason)
        case Ok(rest) => Ok([b] + rest)
  }

  /** The blocks of a section whose data is readable: block `i` is the palette entry at
      packed index `i`, at the width the palette's length calls for. */
  ghost function Unpacked(palette: seq<Block>, words: seq<nat>): (r: seq<Block>)
    requires Palette.Readable(palette, words, Palette.BitsFor(|palette|), Palette.SectionVolume)
    ensures |r| == Palette.SectionVolume
  {
    var bits := Palette.BitsFor(|palette|);
    seq(Palette.SectionVolume, i requires 0 <= i < Palette.SectionVolume => palette[Palette.Field(words, bits, i)])
  }

  /** One turn of the section loop of `load_chunk`. A record with `Y` outside `0..15` (a
      half-open range, so `Y = 15` is skipped as well) is ignored; otherwise section
      `Y + 4` becomes all Air, and then, when the record has data, the unpacked blocks. */
  ghost function LoadRecord(secs: Sections, rec: SectionRecord): (r: Result<Sections>)
    requires |secs| == SectionsPerChunk
    ensures r.Ok? ==> |r.value| == SectionsPerChunk
    ensures r.Ok? && SectionsSized(secs) ==> SectionsSized(r.value)
    ensures r.Ok? ==> forall k :: 0 <= k < SectionsPerChunk && k != rec.y + 4 ==> r.value[k] == secs[k]
    ensures !(0 <= rec.y < 15) ==> r == Ok(secs)
  {
    if !(0 <= rec.y < 15) then Ok(secs)
    else
      match DecodePalette(rec.palette)
      case Panic(reason) => Panic(reason)
      case Ok(palette) =>
        match rec.data
        case None => Ok(secs[rec.y + 4 := Some(AllAir())])
        case Some(words) =>
          if Palette.Readable(palette, words, Palette.BitsFor(|palette|), Palette.SectionVolume) then
            Ok(secs[rec.y + 4 := Some(Unpacked(palette, words))])
          else
            Panic("index out of bounds")
  }

  /** The section loop of `load_chunk` over the records in order; the first panic ends it. */
  ghost function LoadRecords(secs: Sections, recs: seq<SectionRecord>): (r: Result<Sections>)
    requires |secs| == SectionsPerChunk
    ensures r.Ok? ==> |r.value| == SectionsPerChunk
    ensures r.Ok? && SectionsSized(secs) ==> SectionsSized(r.value)
    decreases |recs|
  {
    if recs == [] then Ok(secs)
    else
      match LoadRecords(secs, recs[..|recs| - 1])
      case Panic(reason) => Panic(reason)
      case Ok(s) => LoadRecord(s, recs[|recs| - 1])
  }

  /** Loading touches only the sections named by a record with `0 <= Y < 15`: the sections
      below level 0, those from level 240 up, and any section no record names keep their
      old contents. */
  lemma {:induction false} LoadRecordsFrame(secs: Sections, recs: seq<SectionRecord>, k: nat)
    requires |secs| == SectionsPerChunk && k < SectionsPerChunk
    requires LoadRecords(secs, recs).Ok?
    requires k < 4 || 19 <= k || forall j :: 0 <= j < |recs| ==> recs[j].y + 4 != k
    ensures LoadRecords(secs, recs).value[k] == secs[k]
    decreases |recs|
  {
    if recs != [] {
      var init := recs[..|recs| - 1];
      assert forall j :: 0 <= j < |init| ==> init[j] == recs[j];
      LoadRecordsFrame(secs, init, k);
    }
  }

  /** A panic while loading the first `n` records is a panic of the whole load. */
  lemma {:induction false} LoadRecordsPanicStays(secs: Sections, recs: seq<SectionRecord>, n: nat)
    requires |secs| == SectionsPerChunk && n <= |recs|
    requires LoadRecords(secs, recs[..n]).Panic?
    ensures LoadRecords(secs, recs).Panic?
    decreases |recs| - n
  {
    if n < |recs| {
      assert recs[..n + 1][..n] == recs[..n];
      LoadRecordsPanicStays(secs, recs, n + 1);
    } else {
      assert recs[..n] == recs;
    }
  }

  /** The section loop of `load_chunk`: decodes each record's palette and, when the record
      has data, unpacks its 4096 indices. */
  method LoadSections(secs: Sections, recs: seq<SectionRecord>) returns (r: Result<Sections>)
    requires |secs| == SectionsPerChunk
    ensures r.Ok? <==> LoadRecords(secs, recs).Ok?
    ensures r.Ok? ==> r.value == LoadRecords(secs, recs).value
  {
    var cur := secs;
    for j := 0 to |recs|
      invariant LoadRecords(secs, recs[..j]) == Ok(cur)
    {
      var rec := recs[j];
      assert recs[..j + 1][..j] == recs[..j];
      assert LoadRecords(secs, recs[..j + 1]) == LoadRecord(cur, rec);
      if !(0 <= rec.y < 15) {
        continue;
      }
      var decoded := DecodePalette(rec.palette);
      if decoded.Panic? {
        LoadRecordsPanicStays(secs, recs, j + 1);
        return Panic(decoded.reason);
      }
      var palette := decoded.value;
      if rec.data.None? {
        cur := cur[rec.y + 4 := Some(AllAir())];
        continue;
      }
      var bits := Palette.BitsPerIndex(|palette|);
      var blocks := Palette.Unpack(palette, rec.data.value, bits);
      if blocks.Panic? {
        assert LoadRecords(secs, recs[..j + 1]).Panic?;
        LoadRecordsPanicStays(secs, recs, j + 1);
        return Panic(blocks.reason);
      }
      assert blocks.value == Unpacked(palette, rec.data.value);
      cur := cur[rec.y + 4 := Some(blocks.value)];
    }
    assert recs[..|recs|] == recs;
    r := Ok(cur);
  }

  // ---------------------------------------------------------------------------------------
  // Chunk saving

  /** The slots below `n` whose section is instantiated, in increasing order: the sections
      `save_chunk` writes. */
  function SomeSlots(secs: Sections, n: nat): seq<nat>
    requires n <= |secs|
  {
    if n == 0 then []
    else SomeSlots(secs, n - 1) + if secs[n - 1].Some? then [n - 1] else []
  }

  /** The sections written are exactly the instantiated ones, lowest first. */
  lemma {:induction false} SomeSlotsExact(secs: Sections, n: nat)
    requires n <= |secs|
    ensures forall k: nat :: k in SomeSlots(secs, n) <==> k < n && secs[k].Some?
    ensures forall i :: 0 <= i < |SomeSlots(secs, n)| ==> SomeSlots(secs, n)[i] < n
    ensures forall i, j :: 0 <= i < j < |SomeSlots(secs, n)| ==> SomeSlots(secs, n)[i] < SomeSlots(secs, n)[j]
  {
    if n > 0 {
      SomeSlotsExact(secs, n - 1);
    }
  }

  /** Every block of the section has a block state to write. */
  predicate Serialisable(blocks: seq<Block>) {
    forall i :: 0 <= i < |blocks| ==> ToNbt(blocks[i]).Ok?
  }

  /** Every instantiated section among the first `n` is serialisable. */
  predicate ChunkSerialisable(secs: Sections, n: nat)
    requires n <= |secs|
  {
    forall k :: 0 <= k < n && secs[k].Some? ==> Serialisable(secs[k].value)
  }

  /** `to_nbt` on every palette entry, panicking at the first that has no block state. */
  function EncodePalette(palette: seq<Block>): (r: Result<seq<Compound>>)
    ensures r.Ok? <==> Serialisable(palette)
    ensures r.Ok? ==> |r.value| == |palette| && forall i :: 0 <= i < |palette| ==> ToNbt(palette[i]) == Ok(r.value[i])
  {
    if palette == [] then Ok([])
    else
      match ToNbt(palette[0])
      case Panic(reason) => Panic(reason)
      case Ok(nbt) =>
        match EncodePalette(palette[1..])
        case Panic(reason) => Panic(reason)
        case Ok(rest) => Ok([nbt] + rest)
  }

  /** What `save_chunk` writes for the section in slot `k`: `Y` is `k - 4`; the palette is
      the NBT of the section's distinct blocks, Air first; the data holds the words the
      packing loop writes at the palette's width, and the index of each block leads back
      to that block. */
  ghost predicate EncodesSection(rec: SectionRecord, k: nat, blocks: seq<Block>)
    requires k < SectionsPerChunk && |blocks| == Palette.SectionVolume
  {
    var palette := Palette.Dedup([Air] + blocks);
    var bits := Palette.BitsFor(|palette|);
    Palette.BitsForLeast(|palette|);
    && rec.y == k - 4
    && |rec.palette| == |palette|
    && (forall i :: 0 <= i < |palette| ==> ToNbt(palette[i]) == Ok(rec.palette[i]))
    && rec.data.Some?
    && |rec.data.value| == Palette.WrittenWords(bits)
    && (forall i :: 0 <= i < Palette.SectionVolume ==>
         && Palette.Place(i, bits).0 < |rec.data.value|
         && Palette.Field(rec.data.value, bits, i) < |palette|
         && palette[Palette.Field(rec.data.value, bits, i)] == blocks[i])
  }

  /** The first corner of section `k` of a chunk. */
  function SectionBase(chunk: ChunkIndex, k: nat): Pos {
    Pos(chunk.x * 16, (k - 4) * 16, chunk.z * 16)
  }

  /** The tile entities of the first `n` blocks of a section, in block order. */
  function SectionTileEntities(blocks: seq<Block>, base: Pos, n: nat): seq<Compound>
    requires n <= |blocks|
  {
    if n == 0 then []
    else
      SectionTileEntities(blocks, base, n - 1)
      + match TileEntityNbt(blocks[n - 1], base.Plus(SectionOffset(n - 1))) case Some(t) => [t] case None => []
  }

  /** The tile entities of the instantiated sections among the first `n`, lowest first. */
  function ChunkTileEntities(secs: Sections, chunk: ChunkIndex, n: nat): seq<Compound>
    requires n <= |secs| && SectionsSized(secs)
  {
    if n == 0 then []
    else
      ChunkTileEntities(secs, chunk, n - 1)
      + match secs[n - 1] case Some(blocks) => SectionTileEntities(blocks, SectionBase(chunk, n - 1), |blocks|) case None => []
  }

  /** The position a tile entity of block `i` in section `k` is saved with is the position
      that block is read from: it lies in the chunk, at slot `i`, and, at level 0 or above,
      in section `k`. */
  lemma TileEntityPosition(chunk: ChunkIndex, k: nat, i: nat)
    requires k < SectionsPerChunk && i < Palette.SectionVolume
    ensures var p := SectionBase(chunk, k).Plus(SectionOffset(i));
      && ChunkOf(ColumnOf(p)) == chunk
      && BlockInSectionIndex(p) == i
      && (4 <= k ==> TruncDiv16(p.y) + 4 == k)
  {
    var o := SectionOffset(i);
    var p := SectionBase(chunk, k).Plus(o);
    OffsetSlot(i);
    assert p == Pos(chunk.x * 16 + o.x, (k - 4) * 16 + o.y, chunk.z * 16 + o.z);
    SplitBy16(chunk.x, o.x);
    SplitBy16(k - 4, o.y);
    SplitBy16(chunk.z, o.z);
  }

  /** `(16 q + r) / 16 == q` and `(16 q + r) % 16 == r` for `0 <= r < 16`. */
  lemma SplitBy16(q: int, r: int)
    requires 0 <= r < 16
    ensures (q * 16 + r) / 16 == q && (q * 16 + r) % 16 == r
  {
  }

  /** `recs` are the records of the sections in `slots`, in that order. */
  ghost predicate RecordsFor(recs: seq<SectionRecord>, secs: Sections, slots: seq<nat>)
    requires |secs| == SectionsPerChunk && SectionsSized(secs)
  {
    && |recs| == |slots|
    && forall j :: 0 <= j < |slots| ==>
         slots[j] < SectionsPerChunk && secs[slots[j]].Some? && EncodesSection(recs[j], slots[j], secs[slots[j]].value)
  }

  lemma RecordsForAppend(recs: seq<SectionRecord>, rec: SectionRecord, secs: Sections, slots: seq<nat>, k: nat)
    requires |secs| == SectionsPerChunk && SectionsSized(secs)
    requires k < SectionsPerChunk && secs[k].Some?
    requires RecordsFor(recs, secs, slots) && EncodesSection(rec, k, secs[k].value)
    ensures RecordsFor(recs + [rec], secs, slots + [k])
  {
    var recs', slots' := recs + [rec], slots + [k];
    forall j | 0 <= j < |slots'|
      ensures slots'[j] < SectionsPerChunk && secs[slots'[j]].Some?
      ensures EncodesSection(recs'[j], slots'[j], secs[slots'[j]].value)
    {
      if j < |slots| {
        assert recs'[j] == recs[j] && slots'[j] == slots[j];
      }
    }
  }

  /** The section encoding of `save_chunk`: one record per instantiated section, lowest
      first, and the tile entities of their blocks. Panics when a palette entry has no block
      state. */
  method SaveSections(secs: Sections, chunk: ChunkIndex) returns (r: Result<(seq<SectionRecord>, seq<Compound>)>)
    requires |secs| == SectionsPerChunk && SectionsSized(secs)
    ensures r.Ok? <==> ChunkSerialisable(secs, SectionsPerChunk)
    ensures r.Ok? ==> RecordsFor(r.value.0, secs, SomeSlots(secs, SectionsPerChunk))
    ensures r.Ok? ==> r.value.1 == ChunkTileEntities(secs, chunk, SectionsPerChunk)
  {
    var recs: seq<SectionRecord> := [];
    var tiles: seq<Compound> := [];
    for k := 0 to SectionsPerChunk
      invariant RecordsFor(recs, secs, SomeSlots(secs, k))
      invariant ChunkSerialisable(secs, k)
      invariant tiles == ChunkTileEntities(secs, chunk, k)
    {
      var step := SaveStep(secs, chunk, k, recs, tiles);
      if step.Panic? {
        return Panic(step.reason);
      }
      recs, tiles := step.value.0, step.value.1;
    }
    r := Ok((recs, tiles));
  }

  /** One turn of the section filter: section `k` is skipped when empty and otherwise
      appended as a record, with its tile entities. */
  method SaveStep(secs: Sections, chunk: ChunkIndex, k: nat, recs: seq<SectionRecord>, tiles: seq<Compound>)
    returns (r: Result<(seq<SectionRecord>, seq<Compound>)>)
    requires |secs| == SectionsPerChunk && SectionsSized(secs) && k < SectionsPerChunk
    requires RecordsFor(recs, secs, SomeSlots(secs, k)) && ChunkSerialisable(secs, k)
    requires tiles == ChunkTileEntities(secs, chunk, k)
    ensures r.Ok? <==> ChunkSerialisable(secs, k + 1)
    ensures r.Panic? ==> !ChunkSerialisable(secs, SectionsPerChunk)
    ensures r.Ok? ==> RecordsFor(r.value.0, secs, SomeSlots(secs, k + 1))
    ensures r.Ok? ==> r.value.1 == ChunkTileEntities(secs, chunk, k + 1)
  {
    if secs[k].None? {
      SkipStep(secs, chunk, k, recs);
      return Ok((recs, tiles));
    }
    var blocks := secs[k].value;
    var rec := SaveSection(blocks, k);
    if rec.Panic? {
      StopStep(secs, k);
      return Panic(rec.reason);
    }
    AppendStep(secs, chunk, k, recs, rec.value);
    r := Ok((recs + [rec.value], tiles + SectionTileEntities(blocks, SectionBase(chunk, k), |blocks|)));
  }

  /** An empty section adds no record and no tile entity. */
  lemma SkipStep(secs: Sections, chunk: ChunkIndex, k: nat, recs: seq<SectionRecord>)
    requires |secs| == SectionsPerChunk && SectionsSized(secs) && k < SectionsPerChunk && secs[k].None?
    requires RecordsFor(recs, secs, SomeSlots(secs, k)) && ChunkSerialisable(secs, k)
    ensures RecordsFor(recs, secs, SomeSlots(secs, k + 1)) && ChunkSerialisable(secs, k + 1)
    ensures ChunkTileEntities(secs, chunk, k + 1) == ChunkTileEntities(secs, chunk, k)
  {
    SkipRecords(secs, k, recs);
    SkipSerialisable(secs, k);
    SkipTiles(secs, chunk, k);
  }

  lemma SkipSerialisable(secs: Sections, k: nat)
    requires |secs| == SectionsPerChunk && k < SectionsPerChunk && secs[k].None? && ChunkSerialisable(secs, k)
    ensures ChunkSerialisable(secs, k + 1)
  {
  }

  lemma SkipTiles(secs: Sections, chunk: ChunkIndex, k: nat)
    requires |secs| == SectionsPerChunk && SectionsSized(secs) && k < SectionsPerChunk && secs[k].None?
    ensures ChunkTileEntities(secs, chunk, k + 1) == ChunkTileEntities(secs, chunk, k)
  {
    assert ChunkTileEntities(secs, chunk, k + 1) == ChunkTileEntities(secs, chunk, k) + [];
  }

  lemma SkipRecords(secs: Sections, k: nat, recs: seq<SectionRecord>)
    requires |secs| == SectionsPerChunk && SectionsSized(secs) && k < SectionsPerChunk && secs[k].None?
    requires RecordsFor(recs, secs, SomeSlots(secs, k))
    ensures RecordsFor(recs, secs, SomeSlots(secs, k + 1))
  {
    assert SomeSlots(secs, k + 1) == SomeSlots(secs, k);
  }

  /** A section that cannot be written stops the whole chunk. */
  lemma StopStep(secs: Sections, k: nat)
    requires |secs| == SectionsPerChunk && k < SectionsPerChunk && secs[k].Some? && !Serialisable(secs[k].value)
    ensures !ChunkSerialisable(secs, k + 1) && !ChunkSerialisable(secs, SectionsPerChunk)
  {
  }

  /** An instantiated section adds its record and its tile entities. */
  lemma AppendStep(secs: Sections, chunk: ChunkIndex, k: nat, recs: seq<SectionRecord>, rec: SectionRecord)
    requires |secs| == SectionsPerChunk && SectionsSized(secs) && k < SectionsPerChunk && secs[k].Some?
    requires Serialisable(secs[k].value) && EncodesSection(rec, k, secs[k].value)
    requires RecordsFor(recs, secs, SomeSlots(secs, k)) && ChunkSerialisable(secs, k)
    ensures RecordsFor(recs + [rec], secs, SomeSlots(secs, k + 1)) && ChunkSerialisable(secs, k + 1)
    ensures ChunkTileEntities(secs, chunk, k + 1)
         == ChunkTileEntities(secs, chunk, k) + SectionTileEntities(secs[k].value, SectionBase(chunk, k), Palette.SectionVolume)
  {
    AppendRecords(secs, k, recs, rec);
    AppendSerialisable(secs, k);
    AppendTiles(secs, chunk, k);
  }

  lemma AppendRecords(secs: Sections, k: nat, recs: seq<SectionRecord>, rec: SectionRecord)
    requires |secs| == SectionsPerChunk && SectionsSized(secs) && k < SectionsPerChunk && secs[k].Some?
    requires EncodesSection(rec, k, secs[k].value) && RecordsFor(recs, secs, SomeSlots(secs, k))
    ensures RecordsFor(recs + [rec], secs, SomeSlots(secs, k + 1))
  {
    RecordsForAppend(recs, rec, secs, SomeSlots(secs, k), k);
    assert SomeSlots(secs, k + 1) == SomeSlots(secs, k) + [k];
  }

  lemma AppendSerialisable(secs: Sections, k: nat)
    requires |secs| == SectionsPerChunk && k < SectionsPerChunk && secs[k].Some?
    requires Serialisable(secs[k].value) && ChunkSerialisable(secs, k)
    ensures ChunkSerialisable(secs, k + 1)
  {
  }

  lemma AppendTiles(secs: Sections, chunk: ChunkIndex, k: nat)
    requires |secs| == SectionsPerChunk && SectionsSized(secs) && k < SectionsPerChunk && secs[k].Some?
    ensures ChunkTileEntities(secs, chunk, k + 1)
         == ChunkTileEntities(secs, chunk, k) + SectionTileEntities(secs[k].value, SectionBase(chunk, k), Palette.SectionVolume)
  {
  }

  /** The body of the section filter of `save_chunk` for an instantiated section. */
  method SaveSection(blocks: seq<Block>, k: nat) returns (r: Result<SectionRecord>)
    requires k < SectionsPerChunk && |blocks| == Palette.SectionVolume
    ensures r.Ok? <==> Serialisable(blocks)
    ensures r.Ok? ==> EncodesSection(r.value, k, blocks)
  {
    var e := Palette.EncodeSection(blocks);
    var nbt := EncodePalette(e.palette);
    PaletteSerialisable(blocks);
    if nbt.Panic? {
      return Panic(nbt.reason);
    }
    r := Ok(SectionRecord((k - 4) as i8, nbt.value, Some(e.words)));
  }

  /** The palette of a section has block states exactly when its blocks do (Air always has
      one). */
  lemma PaletteSerialisable(blocks: seq<Block>)
    ensures Serialisable(Palette.Dedup([Air] + blocks)) <==> Serialisable(blocks)
  {
    var d := Palette.Dedup([Air] + blocks);
    if Serialisable(blocks) {
      forall i | 0 <= i < |d|
        ensures ToNbt(d[i]).Ok?
      {
        assert d[i] in [Air] + blocks;
      }
    }
    if Serialisable(d) {
      forall i | 0 <= i < |blocks|
        ensures ToNbt(blocks[i]).Ok?
      {
        assert blocks[i] in [Air] + blocks;
        var j :| 0 <= j < |d| && d[j] == blocks[i];
      }
    }
  }

  // ---------------------------------------------------------------------------------------
  // Saving and loading back

  /** The block is written as NBT and read back as itself. */
  predicate NbtRoundTrips(b: Block) {
    ToNbt(b).Ok? && FromNbt(ToNbt(b).value) == Ok(b)
  }

  /** Every block of every instantiated section round-trips. */
  predicate ChunkRoundTrips(secs: Sections)
    requires SectionsSized(secs)
  {
    forall k, i :: 0 <= k < |secs| && secs[k].Some? && 0 <= i < Palette.SectionVolume ==> NbtRoundTrips(secs[k].value[i])
  }

  lemma AirRoundTrips()
    ensures NbtRoundTrips(Air)
  {
    var nbt := ToNbt(Air).value;
    assert nbt == [("Name", TString("air"))];
    GetPair("Name", TString("air"), "Name", TString("air"), "Name");
    GetPair("Name", TString("air"), "Name", TString("air"), "Properties");
    assert !StartsWith("air", "minecraft:");
  }

  /** The sections in `slots` that a load keeps (levels 0 to 239); every other slot is
      empty. */
  function ReloadedSlots(secs: Sections, slots: seq<nat>): (r: Sections)
    requires |secs| == SectionsPerChunk
    ensures |r| == SectionsPerChunk
  {
    seq(SectionsPerChunk, k requires 0 <= k < SectionsPerChunk => if 4 <= k < 19 && k in slots then secs[k] else None)
  }

  /** What loading a saved chunk into empty sections gives: the sections of levels 0 to
      239 as they were, and no section below or above. */
  function Reloaded(secs: Sections): (r: Sections)
    requires |secs| == SectionsPerChunk
    ensures |r| == SectionsPerChunk
    ensures forall k :: 4 <= k < 19 ==> r[k] == secs[k]
    ensures forall k :: 0 <= k < SectionsPerChunk && !(4 <= k < 19) ==> r[k].None?
  {
    seq(SectionsPerChunk, k requires 0 <= k < SectionsPerChunk => if 4 <= k < 19 then secs[k] else None)
  }

  /** Every entry of a section's palette round-trips when its blocks do. */
  lemma PaletteRoundTrips(blocks: seq<Block>)
    requires forall i :: 0 <= i < |blocks| ==> NbtRoundTrips(blocks[i])
    ensures forall i :: 0 <= i < |Palette.Dedup([Air] + blocks)| ==> NbtRoundTrips(Palette.Dedup([Air] + blocks)[i])
  {
    var palette := Palette.Dedup([Air] + blocks);
    AirRoundTrips();
    forall i | 0 <= i < |palette|
      ensures NbtRoundTrips(palette[i])
    {
      assert palette[i] in [Air] + blocks;
    }
  }

  /** Decoding the NBT of a palette whose every entry reads back as itself gives the
      palette back. */
  lemma DecodeEncodedPalette(nbts: seq<Compound>, palette: seq<Block>)
    requires |nbts| == |palette|
    requires forall i :: 0 <= i < |palette| ==> FromNbt(nbts[i]) == Ok(palette[i])
    ensures DecodePalette(nbts) == Ok(palette)
  {
    assert DecodePalette(nbts).Ok?;
    assert DecodePalette(nbts).value == palette;
  }

  /** The NBT written for a block that round-trips reads back as that block. */
  lemma ReadsBackAsItself(b: Block, nbt: Compound)
    requires ToNbt(b) == Ok(nbt) && NbtRoundTrips(b)
    ensures FromNbt(nbt) == Ok(b)
  {
  }

  /** The data `save_chunk` wrote unpacks to the section's blocks. */
  lemma UnpackedEncoded(rec: SectionRecord, k: nat, blocks: seq<Block>)
    requires k < SectionsPerChunk && |blocks| == Palette.SectionVolume
    requires EncodesSection(rec, k, blocks)
    ensures var palette := Palette.Dedup([Air] + blocks);
      && Palette.Readable(palette, rec.data.value, Palette.BitsFor(|palette|), Palette.SectionVolume)
      && Unpacked(palette, rec.data.value) == blocks
  {
  }

  /** The palette `save_chunk` wrote for a section whose blocks round-trip decodes to the
      section's palette. */
  lemma DecodeSavedPalette(rec: SectionRecord, k: nat, blocks: seq<Block>)
    requires k < SectionsPerChunk && |blocks| == Palette.SectionVolume
    requires EncodesSection(rec, k, blocks)
    requires forall i :: 0 <= i < |blocks| ==> NbtRoundTrips(blocks[i])
    ensures DecodePalette(rec.palette) == Ok(Palette.Dedup([Air] + blocks))
  {
    var palette := Palette.Dedup([Air] + blocks);
    PaletteRoundTrips(blocks);
    forall i | 0 <= i < |palette|
      ensures FromNbt(rec.palette[i]) == Ok(palette[i])
    {
      ReadsBackAsItself(palette[i], rec.palette[i]);
    }
    DecodeEncodedPalette(rec.palette, palette);
  }

  /** A record in range whose palette decodes and whose data is readable loads its
      unpacked blocks into section `Y + 4`. */
  lemma LoadReadable(st: Sections, rec: SectionRecord, palette: seq<Block>, blocks: seq<Block>)
    requires |st| == SectionsPerChunk && 0 <= rec.y < 15
    requires DecodePalette(rec.palette) == Ok(palette) && rec.data.Some?
    requires Palette.Readable(palette, rec.data.value, Palette.BitsFor(|palette|), Palette.SectionVolume)
    requires Unpacked(palette, rec.data.value) == blocks
    ensures LoadRecord(st, rec) == Ok(st[rec.y + 4 := Some(blocks)])
  {
  }

  /** Loading the record `save_chunk` wrote for section `k` restores that section, or, for
      a section outside levels 0 to 239, changes nothing. */
  lemma LoadEncoded(st: Sections, rec: SectionRecord, k: nat, blocks: seq<Block>)
    requires |st| == SectionsPerChunk && k < SectionsPerChunk && |blocks| == Palette.SectionVolume
    requires EncodesSection(rec, k, blocks)
    requires forall i :: 0 <= i < |blocks| ==> NbtRoundTrips(blocks[i])
    ensures LoadRecord(st, rec) == Ok(if 4 <= k < 19 then st[k := Some(blocks)] else st)
  {
    assert rec.y + 4 == k;
    if 4 <= k < 19 {
      DecodeSavedPalette(rec, k, blocks);
      UnpackedEncoded(rec, k, blocks);
      LoadReadable(st, rec, Palette.Dedup([Air] + blocks), blocks);
    }
  }

  lemma TakeOneMore(s: seq<nat>, j: nat)
    requires 0 < j <= |s|
    ensures s[..j] == s[..j - 1] + [s[j - 1]]
  {
  }

  /** Adding a slot to those restored sets that one slot when it lies at levels 0 to 239. */
  lemma ReloadedStep(secs: Sections, slots: seq<nat>, k: nat)
    requires |secs| == SectionsPerChunk && k < SectionsPerChunk
    ensures ReloadedSlots(secs, slots + [k])
         == if 4 <= k < 19 then ReloadedSlots(secs, slots)[k := secs[k]] else ReloadedSlots(secs, slots)
  {
  }

  /** Loading the records of the first `j` saved sections into empty sections restores
      exactly those of them that lie at levels 0 to 239. */
  lemma {:induction false} LoadSavedPrefix(secs: Sections, recs: seq<SectionRecord>, slots: seq<nat>, j: nat)
    requires |secs| == SectionsPerChunk && SectionsSized(secs)
    requires RecordsFor(recs, secs, slots)
    requires ChunkRoundTrips(secs)
    requires j <= |recs|
    ensures LoadRecords(NoSections(), recs[..j]) == Ok(ReloadedSlots(secs, slots[..j]))
  {
    if j == 0 {
      assert ReloadedSlots(secs, slots[..0]) == NoSections();
    } else {
      LoadSavedPrefix(secs, recs, slots, j - 1);
      var blocks := SavedBlocks(secs, recs, slots, j - 1);
      assert LoadRecords(NoSections(), recs[..j - 1]) == Ok(ReloadedSlots(secs, slots[..j - 1]));
      LoadSavedNext(secs, recs, slots, j, blocks);
    }
  }

  /** Loading the record of saved section `j - 1` after those before it restores that
      section too when it lies at levels 0 to 239. */
  lemma LoadSavedNext(secs: Sections, recs: seq<SectionRecord>, slots: seq<nat>, j: nat, blocks: seq<Block>)
    requires |secs| == SectionsPerChunk && 0 < j <= |recs| && j <= |slots|
    requires slots[j - 1] < SectionsPerChunk && secs[slots[j - 1]] == Some(blocks)
    requires |blocks| == Palette.SectionVolume && EncodesSection(recs[j - 1], slots[j - 1], blocks)
    requires forall i :: 0 <= i < |blocks| ==> NbtRoundTrips(blocks[i])
    requires LoadRecords(NoSections(), recs[..j - 1]) == Ok(ReloadedSlots(secs, slots[..j - 1]))
    ensures LoadRecords(NoSections(), recs[..j]) == Ok(ReloadedSlots(secs, slots[..j]))
  {
    var k := slots[j - 1];
    var prev := ReloadedSlots(secs, slots[..j - 1]);
    LoadOneMore(recs, j, prev);
    LoadEncoded(prev, recs[j - 1], k, blocks);
    TakeOneMore(slots, j);
    ReloadedStep(secs, slots[..j - 1], k);
    if 4 <= k < 19 {
      assert LoadRecord(prev, recs[j - 1]) == Ok(prev[k := secs[k]]);
    } else {
      assert LoadRecord(prev, recs[j - 1]) == Ok(prev);
    }
  }

  /** Loading one more record continues from what the records before it gave. */
  lemma LoadOneMore(recs: seq<SectionRecord>, j: nat, prev: Sections)
    requires 0 < j <= |recs| && |prev| == SectionsPerChunk
    requires LoadRecords(NoSections(), recs[..j - 1]) == Ok(prev)
    ensures LoadRecords(NoSections(), recs[..j]) == LoadRecord(prev, recs[j - 1])
  {
    assert recs[..j][..j - 1] == recs[..j - 1];
    assert recs[..j][j - 1] == recs[j - 1];
  }

  /** The blocks of saved section `n`: its record encodes them, and they round-trip. */
  lemma SavedBlocks(secs: Sections, recs: seq<SectionRecord>, slots: seq<nat>, n: nat) returns (blocks: seq<Block>)
    requires |secs| == SectionsPerChunk && SectionsSized(secs) && ChunkRoundTrips(secs)
    requires RecordsFor(recs, secs, slots)
    requires n < |recs|
    ensures n < |slots| && slots[n] < SectionsPerChunk
    ensures secs[slots[n]] == Some(blocks) && |blocks| == Palette.SectionVolume
    ensures EncodesSection(recs[n], slots[n], blocks)
    ensures forall i :: 0 <= i < |blocks| ==> NbtRoundTrips(blocks[i])
  {
    blocks := secs[slots[n]].value;
  }

  /** Round trip of a chunk: saving its sections and loading the records into empty
      sections gives back every section of levels 0 to 239 and drops the rest, provided
      every block is read back from its own NBT. */
  lemma ChunkRoundTrip(secs: Sections, recs: seq<SectionRecord>)
    requires |secs| == SectionsPerChunk && SectionsSized(secs)
    requires RecordsFor(recs, secs, SomeSlots(secs, SectionsPerChunk))
    requires ChunkRoundTrips(secs)
    ensures LoadRecords(NoSections(), recs) == Ok(Reloaded(secs))
  {
    var slots := SomeSlots(secs, SectionsPerChunk);
    LoadSavedPrefix(secs, recs, slots, |recs|);
    assert recs[..|recs|] == recs;
    assert slots[..|recs|] == slots;
    ReloadedAll(secs);
  }

  /** Restoring every written section of levels 0 to 239 is what loading a saved chunk
      gives. */
  lemma ReloadedAll(secs: Sections)
    requires |secs| == SectionsPerChunk
    ensures ReloadedSlots(secs, SomeSlots(secs, SectionsPerChunk)) == Reloaded(secs)
  {
    SomeSlotsExact(secs, SectionsPerChunk);
  }
}
