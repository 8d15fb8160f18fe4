/** The prefab loader of src/structures/mod.rs: reading a structure template (its size,
    its armor-stand markers, its palette and its blocks) and stamping it into a level,
    turned to face a given direction. Templates use the newer block layout, where `z` is
    the vertical axis.

    Loading reports two kinds of failure in the source: a `CompoundTagError` (a missing
    or mistyped tag, through `?`) and a panic. Both are `Panic` here; the only caller,
    `Prefab::load`, turns the error into a panic as well. */
module Structures {

  import opened Common
  import opened Geometry
  import opened Nbt
  import opened LevelBlock

  // ---------------------------------------------------------------------------------------
  // Reading tags

  /** `read_pos`: a structure file lists a position as `[x, up, z]`, and the newer layout
      is `z`-up, so the second and third entries trade places. Indexing a list shorter
      than three, or an entry that is not an integer, panics. */
  function ReadPos(list: seq<Tag>): (r: Result<Pos>)
    ensures r.Ok? <==> |list| >= 3 && list[0].TInt? && list[1].TInt? && list[2].TInt?
    ensures r.Ok? ==> r.value == Pos(list[0].i, list[2].i, list[1].i)
  {
    if |list| < 3 then Panic("index out of bounds")
    else
      match (list[0], list[1], list[2])
      case (TInt(x), TInt(z), TInt(y)) => Ok(Pos(x, y, z))
      case _ => Panic("explicit panic")
  }

  /** How a structure file writes a position. */
  function FilePos(p: Pos): seq<Tag> {
    [TInt(p.x), TInt(p.z), TInt(p.y)]
  }

  /** Reading a position written in file order gives the position back, and every
      readable list starts with the file form of what it reads as. */
  lemma ReadPosRoundTrip(p: Pos, list: seq<Tag>)
    ensures ReadPos(FilePos(p)) == Ok(p)
    ensures ReadPos(list).Ok? ==> list[..3] == FilePos(ReadPos(list).value)
  {
  }

  /** The items of a list that are all compound tags, or None. */
  function Compounds(items: seq<Tag>): (r: Option<seq<Compound>>)
    ensures r.Some? <==> forall i :: 0 <= i < |items| ==> items[i].TCompound?
    ensures r.Some? ==> |r.value| == |items| && forall i :: 0 <= i < |items| ==> r.value[i] == items[i].entries
  {
    if items == [] then Some([])
    else
      match (items[0], Compounds(items[1..]))
      case (TCompound(e), Some(rest)) => Some([e] + rest)
      case _ => None
  }

  /** `get_compound_tag_vec`. */
  function GetCompounds(c: Compound, key: string): Option<seq<Compound>> {
    match GetList(c, key)
    case Some(items) => Compounds(items)
    case None => None
  }

  /** `get_str_vec(key).unwrap_or(Vec::new())`: the strings of a list of strings, and no
      strings at all when the key is missing or some item is not a string. */
  function StringList(c: Compound, key: string): (r: seq<string>)
    ensures forall s :: s in r ==> exists items :: GetList(c, key) == Some(items) && TString(s) in items
  {
    match GetList(c, key)
    case Some(items) =>
      if forall i :: 0 <= i < |items| ==> items[i].TString? then
        var r := seq(|items|, i requires 0 <= i < |items| => items[i].s);
        assert forall i :: 0 <= i < |items| ==> items[i] == TString(r[i]);
        r
      else []
    case None => []
  }

  // ---------------------------------------------------------------------------------------
  // Markers

  /** An armor-stand marker: its position, its direction and all its tags. */
  datatype Mark = Mark(pos: Pos, dir: Option<HDir>, tags: seq<string>)

  /** The tag naming a direction. Files use `z` for the second horizontal axis, which
      is `y` in the newer layout. */
  function DirTag(d: HDir): string {
    match d
    case XPos => "xpos"
    case XNeg => "xneg"
    case YPos => "zpos"
    case YNeg => "zneg"
  }

  /** The marker direction: the first of `xpos`, `xneg`, `zpos`, `zneg` that is among the
      tags. */
  function MarkerDir(tags: seq<string>): (d: Option<HDir>)
    ensures d.Some? ==> DirTag(d.value) in tags
    ensures d.None? <==> forall e: HDir :: DirTag(e) !in tags
    ensures d == Some(XPos) <==> "xpos" in tags
    ensures d == Some(XNeg) <==> "xneg" in tags && "xpos" !in tags
    ensures d == Some(YPos) <==> "zpos" in tags && "xpos" !in tags && "xneg" !in tags
    ensures d == Some(YNeg) <==> "zneg" in tags && "xpos" !in tags && "xneg" !in tags && "zpos" !in tags
  {
    if "xpos" in tags then Some(XPos)
    else if "xneg" in tags then Some(XNeg)
    else if "zpos" in tags then Some(YPos)
    else if "zneg" in tags then Some(YNeg)
    else
      NoDirTags(tags);
      None
  }

  lemma NoDirTags(tags: seq<string>)
    requires "xpos" !in tags && "xneg" !in tags && "zpos" !in tags && "zneg" !in tags
    ensures forall e: HDir :: DirTag(e) !in tags
  {
    forall e: HDir
      ensures DirTag(e) !in tags
    {
      match e
      case XPos =>
      case XNeg =>
      case YPos =>
      case YNeg =>
    }
  }

  /** The name of a marker: the remainder of its first tag that starts with `name:`. */
  function MarkerName(tags: seq<string>): (r: Option<string>)
    ensures r.Some? <==> exists i :: 0 <= i < |tags| && StartsWith(tags[i], "name:")
    ensures r.Some? ==> exists i :: 0 <= i < |tags| && tags[i] == "name:" + r.value &&
                                    forall j :: 0 <= j < i ==> !StartsWith(tags[j], "name:")
  {
    if tags == [] then None
    else if StartsWith(tags[0], "name:") then
      var name := StripPrefix(tags[0], "name:");
      assert tags[0] == "name:" + name;
      Some(name)
    else
      var r := MarkerName(tags[1..]);
      MarkerNameTail(tags, r);
      r
  }

  lemma MarkerNameTail(tags: seq<string>, r: Option<string>)
    requires |tags| > 0 && !StartsWith(tags[0], "name:")
    requires r.Some? <==> exists i :: 0 <= i < |tags[1..]| && StartsWith(tags[1..][i], "name:")
    requires r.Some? ==> exists i :: 0 <= i < |tags[1..]| && tags[1..][i] == "name:" + r.value &&
                                     forall j :: 0 <= j < i ==> !StartsWith(tags[1..][j], "name:")
    ensures r.Some? <==> exists i :: 0 <= i < |tags| && StartsWith(tags[i], "name:")
    ensures r.Some? ==> exists i :: 0 <= i < |tags| && tags[i] == "name:" + r.value &&
                                    forall j :: 0 <= j < i ==> !StartsWith(tags[j], "name:")
  {
    assert forall i :: 0 < i < |tags| ==> tags[i] == tags[1..][i - 1];
    if r.Some? {
      var k :| 0 <= k < |tags[1..]| && tags[1..][k] == "name:" + r.value &&
               forall j :: 0 <= j < k ==> !StartsWith(tags[1..][j], "name:");
      assert tags[k + 1] == "name:" + r.value;
      assert forall j :: 0 < j < k + 1 ==> !StartsWith(tags[j], "name:");
    }
    forall i | 0 <= i < |tags| && StartsWith(tags[i], "name:")
      ensures r.Some?
    {
      assert StartsWith(tags[1..][i - 1], "name:");
    }
  }

  /** One entity of the template, as the `filter_map` closure sees it: its position and
      `nbt` are unwrapped first (panicking when missing); an armor stand yields its name
      and marker, panicking when it is unnamed; anything else yields nothing. */
  function ReadMarker(entity: Compound): (r: Result<Option<(string, Mark)>>)
    ensures r.Ok? && r.value.Some? ==>
      && GetList(entity, "blockPos").Some?
      && Ok(r.value.value.1.pos) == ReadPos(GetList(entity, "blockPos").value)
      && GetCompound(entity, "nbt").Some?
      && GetStr(GetCompound(entity, "nbt").value, "id") == Some("minecraft:armor_stand")
      && r.value.value.1.tags == StringList(GetCompound(entity, "nbt").value, "Tags")
      && "name:" + r.value.value.0 in r.value.value.1.tags
      && r.value.value.1.dir == MarkerDir(r.value.value.1.tags)
    ensures r.Ok? <==> MarkerEntity(entity) && (IsArmorStand(entity) ==> Named(entity))
    ensures r.Ok? && r.value.Some? <==> MarkerEntity(entity) && IsArmorStand(entity) && Named(entity)
    ensures r.Ok? && r.value.Some? ==> Some(r.value.value.0) == MarkerName(r.value.value.1.tags)
    ensures r == Ok(None) <==> MarkerEntity(entity) && !IsArmorStand(entity)
    ensures r.Panic? && MarkerEntity(entity) ==> r.reason == "Unnamed marker"
  {
    match GetList(entity, "blockPos")
    case None => Panic("called `Option::unwrap()` on a `None` value")
    case Some(list) =>
      match ReadPos(list)
      case Panic(reason) => Panic(reason)
      case Ok(pos) =>
        match GetCompound(entity, "nbt")
        case None => Panic("called `Option::unwrap()` on a `None` value")
        case Some(data) =>
          if GetStr(data, "id") != Some("minecraft:armor_stand") then Ok(None)
          else
            var tags := StringList(data, "Tags");
            match MarkerName(tags)
            case None => Panic("Unnamed marker")
            case Some(name) => Ok(Some((name, Mark(pos, MarkerDir(tags), tags))))
  }

  /** The entity has a readable `blockPos` and an `nbt` compound: the two unwraps of the
      closure succeed. */
  predicate MarkerEntity(entity: Compound) {
    && GetList(entity, "blockPos").Some? && ReadPos(GetList(entity, "blockPos").value).Ok?
    && GetCompound(entity, "nbt").Some?
  }

  /** The entity's `nbt` says it is an armor stand. */
  predicate IsArmorStand(entity: Compound)
    requires MarkerEntity(entity)
  {
    GetStr(GetCompound(entity, "nbt").value, "id") == Some("minecraft:armor_stand")
  }

  /** Some tag of the entity starts with `name:`. */
  predicate Named(entity: Compound)
    requires MarkerEntity(entity)
  {
    var tags := StringList(GetCompound(entity, "nbt").value, "Tags");
    exists i :: 0 <= i < |tags| && StartsWith(tags[i], "name:")
  }

  /** What the `filter_map` closure yields for one entity. */
  type Yield = Result<Option<(string, Mark)>>

  /** A yield that is a marker named `name`. */
  ghost predicate Names(y: Yield, name: string) {
    y.Ok? && y.value.Some? && y.value.value.0 == name
  }

  /** Yield `i` is the last marker named `name`. */
  ghost predicate LastNamed(ys: seq<Yield>, i: int, name: string) {
    && 0 <= i < |ys|
    && Names(ys[i], name)
    && forall j :: i < j < |ys| ==> !Names(ys[j], name)
  }

  /** `collect` into a map, in order: the first panic ends it. What the map holds is
      `CollectContents`. */
  function Collect(ys: seq<Yield>): (r: Result<map<string, Mark>>)
    ensures r.Ok? <==> forall i :: 0 <= i < |ys| ==> ys[i].Ok?
  {
    if ys == [] then Ok(map[])
    else
      var init := ys[..|ys| - 1];
      assert forall i :: 0 <= i < |init| ==> init[i] == ys[i];
      match Collect(init)
      case Panic(reason) => Panic(reason)
      case Ok(m) =>
        match ys[|ys| - 1]
        case Panic(reason) => Panic(reason)
        case Ok(None) => Ok(m)
        case Ok(Some((name, mark))) => Ok(m[name := mark])
  }

  /** The map holds a name exactly when some yield is a marker of that name, and then
      holds the last such marker: a later marker of the same name replaces an earlier
      one. */
  lemma {:induction false} CollectContents(ys: seq<Yield>)
    requires Collect(ys).Ok?
    ensures forall name :: name in Collect(ys).value <==> exists i :: 0 <= i < |ys| && Names(ys[i], name)
    ensures forall i, name :: LastNamed(ys, i, name) ==>
      name in Collect(ys).value && Collect(ys).value[name] == ys[i].value.value.1
  {
    if ys != [] {
      var n := |ys| - 1;
      var init := ys[..n];
      assert forall i :: 0 <= i < n ==> init[i] == ys[i];
      CollectContents(init);
      var m := Collect(init).value;
      var r := Collect(ys).value;
      assert r == m || (ys[n].value.Some? && r == m[ys[n].value.value.0 := ys[n].value.value.1]);
      forall name
        ensures name in r <==> exists i :: 0 <= i < |ys| && Names(ys[i], name)
      {
        if !Names(ys[n], name) && exists i :: 0 <= i < |ys| && Names(ys[i], name) {
          var i :| 0 <= i < |ys| && Names(ys[i], name);
          assert Names(init[i], name);
        }
      }
      forall i, name | LastNamed(ys, i, name)
        ensures name in r && r[name] == ys[i].value.value.1
      {
        if i < n {
          assert !Names(ys[n], name);
          assert LastNamed(init, i, name);
        }
      }
    }
  }

  /** The markers of the template's entities, by name. */
  function Markers(entities: seq<Compound>): (r: Result<map<string, Mark>>)
    ensures r.Ok? <==> forall i :: 0 <= i < |entities| ==> ReadMarker(entities[i]).Ok?
  {
    Collect(Yields(entities))
  }

  function Yields(entities: seq<Compound>): (ys: seq<Yield>)
    ensures |ys| == |entities| && forall i :: 0 <= i < |entities| ==> ys[i] == ReadMarker(entities[i])
  {
    seq(|entities|, i requires 0 <= i < |entities| => ReadMarker(entities[i]))
  }

  // ---------------------------------------------------------------------------------------
  // Blocks

  /** One entry of the template's `blocks` list: its position relative to the origin and
      its palette block. The `pos` and `state` tags must be present and `state` must
      index the palette (a negative `i32` cast to `usize` is out of bounds too). */
  function ReadBlock(entry: Compound, palette: seq<Block>, origin: Pos): (r: Result<(Pos, Block)>)
    ensures r.Ok? <==>
      && GetList(entry, "pos").Some? && ReadPos(GetList(entry, "pos").value).Ok?
      && GetInt(entry, "state").Some? && 0 <= GetInt(entry, "state").value < |palette|
    ensures r.Ok? ==>
      && r.value.0.Plus(origin) == ReadPos(GetList(entry, "pos").value).value
      && r.value.1 == palette[GetInt(entry, "state").value]
  {
    match GetList(entry, "pos")
    case None => Panic("missing pos")
    case Some(list) =>
      match ReadPos(list)
      case Panic(reason) => Panic(reason)
      case Ok(pos) =>
        match GetInt(entry, "state")
        case None => Panic("missing state")
        case Some(state) =>
          if 0 <= state < |palette| then Ok((pos.Minus(origin), palette[state]))
          else Panic("index out of bounds")
  }

  /** All entries read, in file order; fails when any entry does. */
  function ReadBlocks(entries: seq<Compound>, palette: seq<Block>, origin: Pos): (r: Result<seq<(Pos, Block)>>)
    ensures r.Ok? <==> forall i :: 0 <= i < |entries| ==> ReadBlock(entries[i], palette, origin).Ok?
    ensures r.Ok? ==> |r.value| == |entries|
    ensures r.Ok? ==> forall i :: 0 <= i < |entries| ==> r.value[i] == ReadBlock(entries[i], palette, origin).value
  {
    if entries == [] then Ok([])
    else
      assert forall i :: 0 < i < |entries| ==> entries[i] == entries[1..][i - 1];
      match (ReadBlock(entries[0], palette, origin), ReadBlocks(entries[1..], palette, origin))
      case (Ok(b), Ok(rest)) => Ok([b] + rest)
      case (Panic(reason), _) => Panic(reason)
      case (_, Panic(reason)) => Panic(reason)
  }

  /** The non-air entries, in reverse order. */
  function Solids(file: seq<(Pos, Block)>): (r: seq<(Pos, Block)>)
    ensures forall e :: e in r ==> e in file && e.1 != Air
  {
    if file == [] then []
    else Solids(file[1..]) + (if file[0].1 != Air then [file[0]] else [])
  }

  /** The air entries, in order. */
  function Airs(file: seq<(Pos, Block)>): (r: seq<(Pos, Block)>)
    ensures forall e :: e in r ==> e in file && e.1 == Air
  {
    if file == [] then []
    else (if file[0].1 == Air then [file[0]] else []) + Airs(file[1..])
  }

  /** The order in which a prefab is built: everything solid first, in reverse file
      order, then the air, in file order. */
  function BuildOrder(file: seq<(Pos, Block)>): seq<(Pos, Block)> {
    Solids(file) + Airs(file)
  }

  /** Every entry of the file is built exactly once. */
  lemma {:induction false} BuildOrderPermutes(file: seq<(Pos, Block)>)
    ensures multiset(BuildOrder(file)) == multiset(file)
  {
    if file != [] {
      var rest := file[1..];
      BuildOrderPermutes(rest);
      assert file == [file[0]] + rest;
      assert multiset(BuildOrder(file)) == multiset(Solids(rest)) + multiset([file[0]]) + multiset(Airs(rest));
    }
  }

  /** All solid entries come before all air entries. */
  lemma BuildOrderAirLast(file: seq<(Pos, Block)>, i: nat, j: nat)
    requires i < j < |BuildOrder(file)|
    requires BuildOrder(file)[i].1 == Air
    ensures BuildOrder(file)[j].1 == Air
  {
    var s := Solids(file);
    assert BuildOrder(file)[i] !in s;
    assert BuildOrder(file)[j] == Airs(file)[j - |s|];
    assert Airs(file)[j - |s|] in Airs(file);
  }

  /** An entry later in the file is built before the solid entries ahead of it when it is
      solid, and cleared after the air ahead of it when it is air: solid blocks come in
      reverse file order, air in file order. */
  lemma BuildOrderOfLater(file: seq<(Pos, Block)>, e: (Pos, Block))
    ensures Solids(file + [e]) == (if e.1 != Air then [e] else []) + Solids(file)
    ensures Airs(file + [e]) == Airs(file) + (if e.1 == Air then [e] else [])
  {
    SolidsOfLater(file, e);
    AirsOfLater(file, e);
  }

  lemma {:induction false} SolidsOfLater(file: seq<(Pos, Block)>, e: (Pos, Block))
    ensures Solids(file + [e]) == (if e.1 != Air then [e] else []) + Solids(file)
  {
    if file != [] {
      assert (file + [e])[0] == file[0];
      assert (file + [e])[1..] == file[1..] + [e];
      SolidsOfLater(file[1..], e);
    } else {
      assert [e][1..] == [];
    }
  }

  lemma {:induction false} AirsOfLater(file: seq<(Pos, Block)>, e: (Pos, Block))
    ensures Airs(file + [e]) == Airs(file) + (if e.1 == Air then [e] else [])
  {
    if file != [] {
      assert (file + [e])[0] == file[0];
      assert (file + [e])[1..] == file[1..] + [e];
      AirsOfLater(file[1..], e);
    } else {
      assert [e][1..] == [];
    }
  }

  /** The ordering loop of `load_from_nbt`: the entries are visited last to first; a
      solid block is pushed at the back of `blocks` and air at the front of `air`, and
      then the air follows the solid blocks. */
  method OrderBlocks(entries: seq<Compound>, palette: seq<Block>, origin: Pos) returns (r: Result<seq<(Pos, Block)>>)
    ensures r.Ok? <==> ReadBlocks(entries, palette, origin).Ok?
    ensures r.Ok? ==> r.value == BuildOrder(ReadBlocks(entries, palette, origin).value)
  {
    var blocks: seq<(Pos, Block)> := [];
    var air: seq<(Pos, Block)> := [];
    var k := |entries|;
    assert entries[k..] == [];
    while k > 0
      invariant 0 <= k <= |entries|
      invariant ReadBlocks(entries[k..], palette, origin).Ok?
      invariant blocks == Solids(ReadBlocks(entries[k..], palette, origin).value)
      invariant air == Airs(ReadBlocks(entries[k..], palette, origin).value)
    {
      k := k - 1;
      var entry := ReadBlock(entries[k], palette, origin);
      if entry.Panic? {
        assert !ReadBlock(entries[k], palette, origin).Ok?;
        return Panic(entry.reason);
      }
      OrderStep(entries, palette, origin, k);
      if entry.value.1 == Air {
        air := [entry.value] + air;
      } else {
        blocks := blocks + [entry.value];
      }
    }
    assert entries[0..] == entries;
    r := Ok(blocks + air);
  }

  /** Reading one more entry, at the front, puts it at the back of the solid blocks or at
      the front of the air. */
  lemma OrderStep(entries: seq<Compound>, palette: seq<Block>, origin: Pos, k: nat)
    requires k < |entries| && ReadBlock(entries[k], palette, origin).Ok?
    requires ReadBlocks(entries[k + 1..], palette, origin).Ok?
    ensures ReadBlocks(entries[k..], palette, origin).Ok?
    ensures var e, rest := ReadBlock(entries[k], palette, origin).value, ReadBlocks(entries[k + 1..], palette, origin).value;
      && Solids(ReadBlocks(entries[k..], palette, origin).value) == Solids(rest) + (if e.1 != Air then [e] else [])
      && Airs(ReadBlocks(entries[k..], palette, origin).value) == (if e.1 == Air then [e] else []) + Airs(rest)
  {
    assert entries[k..][1..] == entries[k + 1..];
    var file := ReadBlocks(entries[k..], palette, origin).value;
    assert file[1..] == ReadBlocks(entries[k + 1..], palette, origin).value;
  }

  // ---------------------------------------------------------------------------------------
  // Loading

  /** A loaded template: its size, its blocks in build order (relative to the origin
      marker) and its markers by name. */
  datatype Prefab = Prefab(size: Pos, blocks: seq<(Pos, Block)>, markers: map<string, Mark>)

  /** What `from_nbt` decodes each palette entry to, before interning. */
  function Decodes(entries: seq<Compound>): seq<Decoded> {
    seq(|entries|, i requires 0 <= i < |entries| => DecodeNbt(entries[i]))
  }

  /** `b` is what `from_nbt` gives for a state that decodes to `d`: its block when the
      state is known, an unknown block otherwise; a failed decoding gives none. */
  ghost predicate Gives(d: Decoded, b: Block) {
    && !d.Failed?
    && (d.Known? ==> b == d.block)
    && (d.Unknown? ==> b.Other?)
  }

  /** An unknown block indexes its own state in the registry's states. */
  ghost predicate NamedIn(d: Decoded, b: Block, states: seq<Blockstate>) {
    d.Unknown? && b.Other? ==> b.index < |states| && states[b.index] == d.state
  }

  lemma GivesAppend(ds: seq<Decoded>, blocks: seq<Block>, b: Block)
    requires |blocks| < |ds|
    requires forall j :: 0 <= j < |blocks| ==> Gives(ds[j], blocks[j])
    requires Gives(ds[|blocks|], b)
    ensures forall j :: 0 <= j < |blocks| + 1 ==> Gives(ds[j], (blocks + [b])[j])
  {
  }

  lemma NamedInAppend(ds: seq<Decoded>, blocks: seq<Block>, b: Block, states: seq<Blockstate>, states': seq<Blockstate>)
    requires |blocks| < |ds| && states <= states'
    requires forall j :: 0 <= j < |blocks| ==> NamedIn(ds[j], blocks[j], states)
    requires NamedIn(ds[|blocks|], b, states')
    ensures forall j :: 0 <= j < |blocks| + 1 ==> NamedIn(ds[j], (blocks + [b])[j], states')
  {
  }

  /** One palette entry through `from_nbt`, as seen by the palette loop (`d` is its
      decoded state). */
  method ReadEntry(entry: Compound, ghost d: Decoded, registry: UnknownBlocks) returns (r: Result<Block>)
    requires d == DecodeNbt(entry)
    modifies registry
    ensures r.Panic? <==> d.Failed?
    ensures r.Ok? ==> Gives(d, r.value)
    ensures old(registry.states) <= registry.states
    ensures old(registry.Valid()) && |old(registry.states)| < 65536 ==>
      && registry.Valid() && |registry.states| <= |old(registry.states)| + 1
      && (r.Ok? ==> NamedIn(d, r.value, registry.states))
  {
    r := registry.FromNbt(entry);
  }

  /** The palette: every entry becomes a block through `Block::from_nbt`, whose unknown
      states are interned into the registry; the first entry it panics on ends the
      load. The registry only grows, and when it is consistent and has room for the
      palette, it stays consistent and names every unknown block's state. */
  method ReadPalette(entries: seq<Compound>, registry: UnknownBlocks) returns (r: Result<seq<Block>>)
    modifies registry
    ensures r.Ok? <==> forall i :: 0 <= i < |entries| ==> !Decodes(entries)[i].Failed?
    ensures r.Ok? ==> |r.value| == |entries| && forall i :: 0 <= i < |entries| ==> Gives(Decodes(entries)[i], r.value[i])
    ensures old(registry.states) <= registry.states
    ensures old(registry.Valid()) && |old(registry.states)| + |entries| <= 65536 ==> registry.Valid()
    ensures old(registry.Valid()) && |old(registry.states)| + |entries| <= 65536 && r.Ok? ==>
      forall i :: 0 <= i < |entries| ==> NamedIn(Decodes(entries)[i], r.value[i], registry.states)
  {
    ghost var ds := Decodes(entries);
    var blocks: seq<Block> := [];
    ghost var valid := old(registry.Valid()) && |old(registry.states)| + |entries| <= 65536;
    for i := 0 to |entries|
      invariant |blocks| == i
      invariant forall j :: 0 <= j < i ==> Gives(ds[j], blocks[j])
      invariant old(registry.states) <= registry.states
      invariant valid ==> registry.Valid() && |registry.states| <= |old(registry.states)| + i
      invariant valid ==> forall j :: 0 <= j < i ==> NamedIn(ds[j], blocks[j], registry.states)
    {
      ghost var before := registry.states;
      var b := ReadEntry(entries[i], ds[i], registry);
      if b.Panic? {
        assert ds[i].Failed?;
        return Panic(b.reason);
      }
      GivesAppend(ds, blocks, b.value);
      if valid {
        NamedInAppend(ds, blocks, b.value, before, registry.states);
      }
      blocks := blocks + [b.value];
    }
    r := Ok(blocks);
  }

  /** A `blocks` entry that reads against a palette of `n` blocks: it has a readable
      `pos` and a `state` below `n`. */
  predicate BlockEntryReads(entry: Compound, n: int) {
    && GetList(entry, "pos").Some? && ReadPos(GetList(entry, "pos").value).Ok?
    && GetInt(entry, "state").Some? && 0 <= GetInt(entry, "state").value < n
  }

  /** A template `load_from_nbt` loads without panicking: a readable size, entities whose
      markers read and include `origin`, a palette none of whose states fails to decode,
      and blocks that all read against that palette. */
  ghost predicate Loadable(nbt: Compound) {
    && GetList(nbt, "size").Some? && ReadPos(GetList(nbt, "size").value).Ok?
    && GetCompounds(nbt, "entities").Some? && Markers(GetCompounds(nbt, "entities").value).Ok?
    && "origin" in Markers(GetCompounds(nbt, "entities").value).value
    && GetCompounds(nbt, "palette").Some?
    && (forall i :: 0 <= i < |GetCompounds(nbt, "palette").value| ==> !Decodes(GetCompounds(nbt, "palette").value)[i].Failed?)
    && GetCompounds(nbt, "blocks").Some?
    && forall i :: 0 <= i < |GetCompounds(nbt, "blocks").value| ==>
         BlockEntryReads(GetCompounds(nbt, "blocks").value[i], |GetCompounds(nbt, "palette").value|)
  }

  /** `load_from_nbt`, in its order: the size, the markers, the origin (panicking when
      there is none), the palette and the blocks. `palette` is the palette read on the
      way. */
  method LoadFromNbt(nbt: Compound, registry: UnknownBlocks) returns (r: Result<Prefab>, palette: seq<Block>)
    modifies registry
    ensures r.Ok? ==>
      && GetList(nbt, "size").Some? && Ok(r.value.size) == ReadPos(GetList(nbt, "size").value)
      && GetCompounds(nbt, "entities").Some? && Ok(r.value.markers) == Markers(GetCompounds(nbt, "entities").value)
      && "origin" in r.value.markers
      && GetCompounds(nbt, "palette").Some? && |palette| == |GetCompounds(nbt, "palette").value|
      && (forall i :: 0 <= i < |palette| ==> Gives(Decodes(GetCompounds(nbt, "palette").value)[i], palette[i]))
      && GetCompounds(nbt, "blocks").Some?
      && ReadBlocks(GetCompounds(nbt, "blocks").value, palette, r.value.markers["origin"].pos).Ok?
      && r.value.blocks == BuildOrder(ReadBlocks(GetCompounds(nbt, "blocks").value, palette, r.value.markers["origin"].pos).value)
    ensures (&& GetList(nbt, "size").Some? && ReadPos(GetList(nbt, "size").value).Ok?
             && GetCompounds(nbt, "entities").Some? && Markers(GetCompounds(nbt, "entities").value).Ok?
             && "origin" !in Markers(GetCompounds(nbt, "entities").value).value) ==> r.Panic?
    ensures r.Ok? <==> Loadable(nbt)
  {
    palette := [];
    var sizeList := GetList(nbt, "size");
    if sizeList.None? {
      return Panic("missing size"), palette;
    }
    var size := ReadPos(sizeList.value);
    if size.Panic? {
      return Panic(size.reason), palette;
    }
    var entities := GetCompounds(nbt, "entities");
    if entities.None? {
      return Panic("missing entities"), palette;
    }
    var markers := Markers(entities.value);
    if markers.Panic? {
      return Panic(markers.reason), palette;
    }
    if "origin" !in markers.value {
      return Panic("No origin set"), palette;
    }
    var origin := markers.value["origin"].pos;
    var paletteEntries := GetCompounds(nbt, "palette");
    if paletteEntries.None? {
      return Panic("missing palette"), palette;
    }
    var blocksOfPalette := ReadPalette(paletteEntries.value, registry);
    if blocksOfPalette.Panic? {
      return Panic(blocksOfPalette.reason), palette;
    }
    palette := blocksOfPalette.value;
    var blockEntries := GetCompounds(nbt, "blocks");
    if blockEntries.None? {
      return Panic("missing blocks"), palette;
    }
    var blocks := OrderBlocks(blockEntries.value, palette, origin);
    if blocks.Panic? {
      return Panic(blocks.reason), palette;
    }
    r := Ok(Prefab(size.value, blocks.value, markers.value));
  }

  // ---------------------------------------------------------------------------------------
  // Building

  /** The level a prefab is built into. Only its block contents are modelled. */
  class Level {
    var block: Pos -> Block

    constructor (contents: Pos -> Block)
      ensures block == contents
    {
      block := contents;
    }

    /** `level[pos] = b`. */
    method Set(pos: Pos, b: Block)
      modifies this
      ensures block(pos) == b && forall p :: p != pos ==> block(p) == old(block)(p)
    {
      var before := block;
      block := p => if p == pos then b else before(p);
    }
  }

  /** The rotation a prefab is built with: from the origin marker's direction to
      `facing`. The origin must have a direction (`unwrap`). */
  function Rotation(prefab: Prefab, facing: HDir): (r: Result<int>)
    ensures r.Ok? <==> "origin" in prefab.markers && prefab.markers["origin"].dir.Some?
    ensures r.Ok? ==> 1 <= r.value <= 7 && prefab.markers["origin"].dir.value.Rotated(r.value) == facing
  {
    if "origin" !in prefab.markers then Panic("no origin")
    else
      match prefab.markers["origin"].dir
      case None => Panic("called `Option::unwrap()` on a `None` value")
      case Some(dir) =>
        assert (dir.Ordinal() + (facing.Ordinal() + 4 - dir.Ordinal())) % 4 == facing.Ordinal();
        Ok(facing.Ordinal() + 4 - dir.Ordinal())
  }

  /** What a level position holds after `writes` are made in order over `before`: the
      last write to it, if any. */
  function LastWrite(writes: seq<(Pos, Block)>, p: Pos, before: Block): Block {
    if writes == [] then before
    else if writes[|writes| - 1].0 == p then writes[|writes| - 1].1
    else LastWrite(writes[..|writes| - 1], p, before)
  }

  /** A position written exactly once ends up holding that write; one never written is
      unchanged. */
  lemma {:induction false} LastWriteUnique(writes: seq<(Pos, Block)>, p: Pos, before: Block, i: nat)
    requires i < |writes| && writes[i].0 == p
    requires forall j :: 0 <= j < |writes| && j != i ==> writes[j].0 != p
    ensures LastWrite(writes, p, before) == writes[i].1
  {
    if i < |writes| - 1 {
      var init := writes[..|writes| - 1];
      LastWriteUnique(init, p, before, i);
    }
  }

  lemma {:induction false} LastWriteUntouched(writes: seq<(Pos, Block)>, p: Pos, before: Block)
    requires forall j :: 0 <= j < |writes| ==> writes[j].0 != p
    ensures LastWrite(writes, p, before) == before
  {
    if writes != [] {
      LastWriteUntouched(writes[..|writes| - 1], p, before);
    }
  }

  /** The writes of `build`: each entry turned about the anchor and given `wood`. */
  function Placements(blocks: seq<(Pos, Block)>, pos: Pos, rotation: int, wood: TreeSpecies): (r: seq<(Pos, Block)>)
    ensures |r| == |blocks|
    ensures forall i :: 0 <= i < |blocks| ==>
      r[i] == (pos.Plus(blocks[i].0.Rotated(rotation)), SwapWoodType(Rotated(blocks[i].1, rotation), wood))
  {
    seq(|blocks|, i requires 0 <= i < |blocks| =>
      (pos.Plus(blocks[i].0.Rotated(rotation)), SwapWoodType(Rotated(blocks[i].1, rotation), wood)))
  }

  /** The writes of `build_clipped`: the turned entries whose column lies in `area`, in
      order, without a change of wood. */
  function ClippedPlacements(blocks: seq<(Pos, Block)>, pos: Pos, rotation: int, area: Rect): (r: seq<(Pos, Block)>)
    ensures forall w :: w in r ==> area.Contains(Column(w.0.x, w.0.y))
  {
    if blocks == [] then []
    else
      var init := ClippedPlacements(blocks[..|blocks| - 1], pos, rotation, area);
      var (offset, b) := blocks[|blocks| - 1];
      var target := pos.Plus(offset.Rotated(rotation));
      if area.Contains(Column(target.x, target.y)) then init + [(target, Rotated(b, rotation))] else init
  }

  /** `build`: writes every entry, in build order, turned so that the origin faces
      `facing` and with oak replaced by `wood`. */
  method Build(prefab: Prefab, level: Level, pos: Pos, facing: HDir, wood: TreeSpecies) returns (r: Result<()>)
    modifies level
    ensures r.Ok? <==> Rotation(prefab, facing).Ok?
    ensures r.Ok? ==> forall p :: level.block(p) == LastWrite(Placements(prefab.blocks, pos, Rotation(prefab, facing).value, wood), p, old(level.block)(p))
    ensures r.Panic? ==> level.block == old(level.block)
  {
    var rotation := Rotation(prefab, facing);
    if rotation.Panic? {
      return Panic(rotation.reason);
    }
    ghost var writes := Placements(prefab.blocks, pos, rotation.value, wood);
    ghost var before := level.block;
    for i := 0 to |prefab.blocks|
      invariant forall p :: level.block(p) == LastWrite(writes[..i], p, before(p))
    {
      var (offset, b) := prefab.blocks[i];
      level.Set(pos.Plus(offset.Rotated(rotation.value)), SwapWoodType(Rotated(b, rotation.value), wood));
      assert writes[..i + 1][..i] == writes[..i];
    }
    assert writes[..|prefab.blocks|] == writes;
    r := Ok(());
  }

  /** `build_clipped`: like `build` without the change of wood, writing only the
      positions whose column lies in `area`. */
  method BuildClipped(prefab: Prefab, level: Level, pos: Pos, facing: HDir, area: Rect) returns (r: Result<()>)
    modifies level
    ensures r.Ok? <==> Rotation(prefab, facing).Ok?
    ensures r.Ok? ==> forall p :: level.block(p) == LastWrite(ClippedPlacements(prefab.blocks, pos, Rotation(prefab, facing).value, area), p, old(level.block)(p))
    ensures forall p: Pos :: !area.Contains(Column(p.x, p.y)) ==> level.block(p) == old(level.block)(p)
  {
    var rotation := Rotation(prefab, facing);
    if rotation.Panic? {
      return Panic(rotation.reason);
    }
    ghost var before := level.block;
    for i := 0 to |prefab.blocks|
      invariant forall p :: level.block(p) == LastWrite(ClippedPlacements(prefab.blocks[..i], pos, rotation.value, area), p, before(p))
    {
      var (offset, b) := prefab.blocks[i];
      var target := pos.Plus(offset.Rotated(rotation.value));
      assert prefab.blocks[..i + 1][..i] == prefab.blocks[..i];
      if area.Contains(Column(target.x, target.y)) {
        level.Set(target, Rotated(b, rotation.value));
      }
    }
    assert prefab.blocks[..|prefab.blocks|] == prefab.blocks;
    r := Ok(());
    ghost var writes := ClippedPlacements(prefab.blocks, pos, rotation.value, area);
    forall p: Pos | !area.Contains(Column(p.x, p.y))
      ensures level.block(p) == before(p)
    {
      forall j | 0 <= j < |writes|
        ensures writes[j].0 != p
      {
        assert writes[j] in writes;
      }
      LastWriteUntouched(writes, p, before(p));
    }
  }

  /** When the turned offsets of a prefab's entries are distinct, `build` puts each
      entry's block exactly at its turned position. */
  lemma BuildPlacesEach(blocks: seq<(Pos, Block)>, pos: Pos, rotation: int, wood: TreeSpecies, before: Block, i: nat)
    requires i < |blocks|
    requires forall j, k :: 0 <= j < k < |blocks| ==> blocks[j].0 != blocks[k].0
    ensures LastWrite(Placements(blocks, pos, rotation, wood), pos.Plus(blocks[i].0.Rotated(rotation)), before)
            == SwapWoodType(Rotated(blocks[i].1, rotation), wood)
  {
    var writes := Placements(blocks, pos, rotation, wood);
    var target := pos.Plus(blocks[i].0.Rotated(rotation));
    forall j | 0 <= j < |writes| && j != i
      ensures writes[j].0 != target
    {
      PosRotatedInverse(blocks[i].0, rotation);
      PosRotatedInverse(blocks[j].0, rotation);
      assert j < i ==> blocks[j].0 != blocks[i].0;
      assert i < j ==> blocks[i].0 != blocks[j].0;
    }
    LastWriteUnique(writes, target, before, i);
  }
}
