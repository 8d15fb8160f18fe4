/** The older block layout (src/world/block.rs): a closed sum type of voxels, its total-but-
    panicking encoder to named block states, the partial decoder from NBT with its fixed
    table of known names, and the classification and rotation helpers. Unknown states are
    carried inline by `Other`. In this layout `y` is the vertical axis. */
module WorldBlock {

  import opened Common
  import opened Geometry
  import opened Nbt
  import opened BlockKinds

  datatype TreeSpecies = Oak | Spruce | Birch | Jungle | Acacia | DarkOak | Warped | Crimson

  function SpeciesStr(s: TreeSpecies): string {
    match s
    case Oak => "oak"
    case Spruce => "spruce"
    case Birch => "birch"
    case Jungle => "jungle"
    case Acacia => "acacia"
    case DarkOak => "dark_oak"
    case Warped => "warped"
    case Crimson => "crimson"
  }

  datatype LogType = Normal(axis: Axis) | FullBark

  datatype SoilType = Dirt | Grass | Sand | Gravel | Farmland | Path | Podzol | CoarseDirt | SoulSand

  datatype SmallPlantType =
    | Grass | DeadBush | Fern | BrownMushroom | RedMushroom | Dandelion | Poppy | BlueOrchid
    | Allium | AzureBluet | RedTulip | OrangeTulip | WhiteTulip | PinkTulip | OxeyeDaisy

  datatype TallPlantType = Grass | Fern | Sunflower | Lilac | Rose | Peony

  datatype GroundPlantType =
    | Sapling(sapling: TreeSpecies)
    | Cactus
    | Reeds
    | Pumpkin
    | Small(small: SmallPlantType)
    | Tall(tall: TallPlantType, upper: bool)
    | Crop(crop: CropType)

  datatype Material =
    | Stone | Granite | PolishedGranite | Diorite | PolishedDiorite | Andesite | PolishedAndesite
    | Wood(species: TreeSpecies)
    | Cobble | MossyCobble | Stonebrick | MossyStonebrick | Brick | Sandstone | SmoothSandstone
    | RedSandstone | SmoothRedSandstone | Blackstone | PolishedBlackstone | PolishedBlackstoneBrick

  function MaterialStr(m: Material): string {
    match m
    case Stone => "stone"
    case Diorite => "diorite"
    case PolishedDiorite => "polished_diorite"
    case Granite => "granite"
    case PolishedGranite => "polished_granite"
    case Andesite => "andesite"
    case PolishedAndesite => "polished_andesite"
    case Wood(species) => SpeciesStr(species)
    case Cobble => "cobblestone"
    case MossyCobble => "mossy_cobblestone"
    case Brick => "brick"
    case Stonebrick => "stone_brick"
    case MossyStonebrick => "mossy_stone_brick"
    case Sandstone => "sandstone"
    case SmoothSandstone => "smooth_sandstone"
    case RedSandstone => "red_sandstone"
    case SmoothRedSandstone => "smooth_red_sandstone"
    case Blackstone => "blackstone"
    case PolishedBlackstone => "polished_blackstone"
    case PolishedBlackstoneBrick => "polished_blackstone_brick"
  }

  /** A named block state: a name and its ordered (property, value) pairs. */
  datatype Blockstate = Blockstate(name: string, props: seq<(string, string)>)

  datatype Block =
    | Air
    | FullBlock(material: Material)
    | Slab(material: Material, flipped: bool)
    | Stair(material: Material, facing: HDir, flipped: bool)
    | Planks(species: TreeSpecies)
    | Fence(material: Material)
    | Water
    | Lava
    | Soil(soil: SoilType)
    | Log(species: TreeSpecies, logType: LogType)
    | Leaves(species: TreeSpecies)
    | GroundPlant(plant: GroundPlantType)
    | Wool(color: Color)
    | Terracotta(tint: Option<Color>)
    | SmoothQuartz
    | SnowLayer
    | Glowstone
    | GlassPane(tint: Option<Color>)
    | WallBanner(facing: HDir, color: Color)
    | Hay
    | Cauldron(water: u8)
    | Bell(facing: HDir, attachment: BellAttachment)
    | Repeater(facing: HDir, delay: u8)
    | Barrier
    | Bedrock
    | CommandBlock(command: string)
    | Other(state: Blockstate)

  function Named(name: string): Blockstate {
    Blockstate(name, [])
  }

  function HalfStr(top: bool): string {
    if top then "top" else "bottom"
  }

  function GroundPlantState(p: GroundPlantType): Blockstate {
    match p
    case Sapling(species) => Named(SpeciesStr(species) + "_sapling")
    case Small(plant) =>
      Named(match plant
        case Grass => "grass"
        case Fern => "fern"
        case DeadBush => "dead_bush"
        case Dandelion => "dandelion"
        case Poppy => "poppy"
        case BlueOrchid => "blue_orchid"
        case Allium => "allium"
        case AzureBluet => "azure_bluet"
        case RedTulip => "red_tulip"
        case OrangeTulip => "orange_tulip"
        case WhiteTulip => "white_tulip"
        case PinkTulip => "pink_tulip"
        case OxeyeDaisy => "oxeye_daisy"
        case BrownMushroom => "brown_mushroom"
        case RedMushroom => "red_mushroom")
    case Cactus => Named("cactus")
    case Reeds => Named("sugar_cane")
    case Pumpkin => Named("pumpkin")
    case Tall(plant, upper) =>
      Blockstate(
        match plant
        case Sunflower => "sunflower"
        case Lilac => "lilac"
        case Grass => "tall_grass"
        case Fern => "large_fern"
        case Rose => "rose_bush"
        case Peony => "peony",
        [("half", if upper then "upper" else "lower")])
    case Crop(crop) => Blockstate(CropState(crop).0, [("age", CropState(crop).1)])
  }

  /** `Block::blockstate`: the named state of a block. The only panics are a cauldron
      fill level above 3 and a repeater delay outside 1..=4. */
  function ToBlockstate(b: Block): (r: Result<Blockstate>)
    ensures r.Panic? <==> (b.Cauldron? && b.water > 3) || (b.Repeater? && !(1 <= b.delay <= 4))
    ensures b.Other? ==> r == Ok(b.state)
  {
    match b
    case Air => Ok(Named("air"))
    case FullBlock(material) =>
      Ok(Named(match material
        case Brick => "bricks"
        case Stonebrick => "stone_bricks"
        case PolishedBlackstoneBrick => "polished_blackstone_bricks"
        case _ => MaterialStr(material)))
    case Planks(species) => Ok(Named(SpeciesStr(species) + "_planks"))
    case Soil(soil) =>
      Ok(Named(match soil
        case Grass => "grass_block"
        case Dirt => "dirt"
        case Sand => "sand"
        case Gravel => "gravel"
        case Farmland => "farmland"
        case Path => "grass_path"
        case CoarseDirt => "coarse_dirt"
        case Podzol => "podzol"
        case SoulSand => "soul_sand"))
    case Bedrock => Ok(Named("bedrock"))
    case Water => Ok(Named("water"))
    case Lava => Ok(Named("lava"))
    case Log(species, logType) =>
      var nether := species == Warped || species == Crimson;
      Ok(match logType
        case Normal(axis) =>
          Blockstate(SpeciesStr(species) + (if nether then "_stem" else "_log"), [("axis", axis.ToStr())])
        case FullBark =>
          Named(SpeciesStr(species) + (if nether then "_hyphae" else "_wood")))
    case Leaves(species) => Ok(Blockstate(SpeciesStr(species) + "_leaves", [("persistent", "true")]))
    case GroundPlant(plant) => Ok(GroundPlantState(plant))
    case Fence(material) =>
      Ok(Named(match material
        case Wood(species) => SpeciesStr(species) + "_fence"
        case _ => MaterialStr(material) + "_wall"))
    case Wool(color) => Ok(Named(ColorStr(color) + "_wool"))
    case Terracotta(tint) =>
      Ok(Named(match tint
        case Some(color) => ColorStr(color) + "_terracotta"
        case None => "terracotta"))
    case SmoothQuartz => Ok(Named("smooth_quartz"))
    case SnowLayer => Ok(Blockstate("snow", [("layers", "1")]))
    case Glowstone => Ok(Named("glowstone"))
    case GlassPane(tint) =>
      Ok(Named(match tint
        case Some(color) => ColorStr(color) + "_stained_glass_pane"
        case None => "glass_pane"))
    case WallBanner(facing, color) =>
      Ok(Blockstate(ColorStr(color) + "_wall_banner", [("facing", facing.ToStr())]))
    case Hay => Ok(Named("hay_block"))
    case Slab(material, flipped) =>
      Ok(Blockstate(MaterialStr(material) + "_slab", [("type", HalfStr(flipped))]))
    case Stair(material, facing, flipped) =>
      Ok(Blockstate(MaterialStr(material) + "_stairs", [("half", HalfStr(flipped)), ("facing", facing.ToStr())]))
    case Cauldron(water) =>
      if water <= 3 then Ok(Blockstate("cauldron", [("level", [DigitChar(water)])]))
      else Panic("Cauldron water level")
    case Bell(facing, attachment) =>
      Ok(Blockstate("bell", [
        ("facing", facing.ToStr()),
        ("attachment", AttachmentStr(attachment))]))
    case Repeater(facing, delay) =>
      if 1 <= delay <= 4 then
        Ok(Blockstate("repeater", [("delay", [DigitChar(delay)]), ("facing", facing.ToStr())]))
      else Panic("Repeater delay")
    case Barrier => Ok(Named("barrier"))
    case CommandBlock(_) => Ok(Named("command_block"))
    case Other(state) => Ok(state)
  }

  /** `Block::to_nbt`: the name, and a `Properties` compound only when there are properties. */
  function ToNbt(b: Block): Result<Compound> {
    match ToBlockstate(b)
    case Panic(reason) => Panic(reason)
    case Ok(state) =>
      Ok([("Name", TString(state.name))]
         + if |state.props| > 0 then [("Properties", TCompound(PropsCompound(state.props)))] else [])
  }

  /** The record a block needs beside it, before its position is added. */
  function TileEntityBase(b: Block): Option<Compound> {
    match b
    case Bell(_, _) => Some([("id", TString("bell"))])
    case WallBanner(_, _) => Some([("id", TString("banner"))])
    case CommandBlock(command) =>
      Some([("id", TString("command_block")), ("Command", TString(command)), ("TrackOutput", TByte(0))])
    case _ => None
  }

  /** `Block::tile_entity_nbt`: the auxiliary record saved beside a block, with its
      absolute position. */
  function TileEntityNbt(b: Block, pos: Pos): Option<Compound> {
    match TileEntityBase(b)
    case None => None
    case Some(nbt) => Some(WithCoords(nbt, pos.x, pos.y, pos.z))
  }

  /** What looking a name up in the decoder's table can give. */
  datatype Lookup = Found(block: Block) | Unrecognised | Fatal(reason: string)

  function SlabOf(material: Material, props: Compound): Lookup {
    match GetStr(props, "type")
    case None => Fatal("slab without type")
    case Some(t) =>
      if t == "top" then Found(Slab(material, true))
      else if t == "double" then Found(FullBlock(material))
      else Found(Slab(material, false))
  }

  function StairOf(material: Material, props: Compound): Lookup {
    match GetStr(props, "facing")
    case None => Fatal("stair without facing")
    case Some(f) =>
      match HDirFromStr(f)
      case None => Fatal("invalid stair facing")
      case Some(facing) =>
        match GetStr(props, "half")
        case None => Fatal("stair without half")
        case Some(h) => Found(Stair(material, facing, h == "top"))
  }

  /** The `axis` property of a log: x, y, z or none; anything else panics. */
  function LogOf(species: TreeSpecies, props: Compound): Lookup {
    match GetStr(props, "axis")
    case None => Fatal("log without axis")
    case Some(a) =>
      if a == "x" then Found(Log(species, Normal(Axis.X)))
      else if a == "y" then Found(Log(species, Normal(Axis.Y)))
      else if a == "z" then Found(Log(species, Normal(Axis.Z)))
      else if a == "none" then Found(Log(species, FullBark))
      else Fatal("Invalid log axis")
  }

  function WallBannerOf(color: Color, props: Compound): Lookup {
    match GetStr(props, "facing")
    case None => Fatal("banner without facing")
    case Some(f) =>
      match HDirFromStr(f)
      case None => Fatal("invalid banner facing")
      case Some(facing) => Found(WallBanner(facing, color))
  }

  function BellOf(props: Compound): Lookup {
    match GetStr(props, "facing")
    case None => Fatal("bell without facing")
    case Some(f) =>
      match HDirFromStr(f)
      case None => Fatal("invalid bell facing")
      case Some(facing) =>
        match GetStr(props, "attachment")
        case None => Fatal("bell without attachment")
        case Some(a) => Found(Bell(facing, AttachmentFromStr(a)))
  }

  /** A missing or non-string `level` falls through to the unknown case (the `?` in the
      source); a level that is not a `u8` panics. */
  function CauldronOf(props: Compound): Lookup {
    match GetStr(props, "level")
    case None => Unrecognised
    case Some(level) =>
      match ParseU8(level)
      case None => Fatal("invalid cauldron level")
      case Some(water) => Found(Cauldron(water))
  }

  /** A `variant` other than `coarse_dirt` falls through to the unknown case. */
  function DirtOf(props: Compound): Lookup {
    match GetStr(props, "variant")
    case None => Found(Soil(SoilType.Dirt))
    case Some(v) => if v == "coarse_dirt" then Found(Soil(CoarseDirt)) else Unrecognised
  }

  /** The names the decoder's table recognises. */
  const KnownNames: set<string> := {
    "air", "cave_air", "stone", "granite", "diorite", "andesite", "cobblestone", "bricks",
    "stone_bricks", "bedrock", "gravel", "grass_block", "sand", "dirt",
    "oak_log", "spruce_log", "birch_log", "jungle_log", "acacia_log", "dark_oak_log",
    "oak_leaves", "spruce_leaves", "birch_leaves", "jungle_leaves", "acacie_leaves", "dark_oak_leaves",
    "grass", "fence", "cobblestone_wall", "mossy_cobblestone_wall",
    "oak_slab", "spruce_slab", "birch_slab", "jungle_slab", "acacia_slab", "dark_oak_slab",
    "cobblestone_slab", "mossy_cobblestone_slab", "stone_brick_slab", "mossy_stone_brick_slab",
    "blackstone_slab", "polished_blackstone_slab",
    "oak_stairs", "spruce_stairs", "birch_stairs", "jungle_stairs", "acacia_stairs", "dark_oak_stairs",
    "stone_brick_stairs", "blackstone_stairs",
    "terracotta", "white_terracotta", "orange_terracotta", "magenta_terracotta", "light_blue_terracotta",
    "yellow_terracotta", "lime_terracotta", "pink_terracotta", "gray_terracotta", "light_gray_terracotta",
    "cyan_terracotta", "purple_terracotta", "blue_terracotta", "brown_terracotta", "green_terracotta",
    "red_terracotta", "black_terracotta",
    "cauldron", "bell",
    "red_wall_banner", "white_wall_banner", "blue_wall_banner", "green_wall_banner", "yellow_wall_banner"
  }

  /** `known_block`: the decoder's fixed table. */
  function KnownBlock(name: string, props: Compound): Lookup {
    match name
    case "air" => Found(Air)
    case "cave_air" => Found(Air)
    case "stone" => Found(FullBlock(Stone))
    case "granite" => Found(FullBlock(Granite))
    case "diorite" => Found(FullBlock(Diorite))
    case "andesite" => Found(FullBlock(Andesite))
    case "cobblestone" => Found(FullBlock(Cobble))
    case "bricks" => Found(FullBlock(Brick))
    case "stone_bricks" => Found(FullBlock(Stonebrick))
    case "bedrock" => Found(Bedrock)
    case "gravel" => Found(Soil(Gravel))
    case "grass_block" => Found(Soil(SoilType.Grass))
    case "sand" => Found(Soil(Sand))
    case "dirt" => DirtOf(props)
    case "oak_log" => LogOf(Oak, props)
    case "spruce_log" => LogOf(Spruce, props)
    case "birch_log" => LogOf(Birch, props)
    case "jungle_log" => LogOf(Jungle, props)
    case "acacia_log" => LogOf(Acacia, props)
    case "dark_oak_log" => LogOf(DarkOak, props)
    case "oak_leaves" => Found(Leaves(Oak))
    case "spruce_leaves" => Found(Leaves(Spruce))
    case "birch_leaves" => Found(Leaves(Birch))
    case "jungle_leaves" => Found(Leaves(Jungle))
    case "acacie_leaves" => Found(Leaves(Acacia))
    case "dark_oak_leaves" => Found(Leaves(DarkOak))
    case "grass" => Found(GroundPlant(Small(SmallPlantType.Grass)))
    case "fence" => Found(Fence(Wood(Oak)))
    case "cobblestone_wall" => Found(Fence(MossyCobble))
    case "mossy_cobblestone_wall" => Found(Fence(MossyCobble))
    case "oak_slab" => SlabOf(Wood(Oak), props)
    case "spruce_slab" => SlabOf(Wood(Spruce), props)
    case "birch_slab" => SlabOf(Wood(Birch), props)
    case "jungle_slab" => SlabOf(Wood(Jungle), props)
    case "acacia_slab" => SlabOf(Wood(Acacia), props)
    case "dark_oak_slab" => SlabOf(Wood(DarkOak), props)
    case "cobblestone_slab" => SlabOf(Cobble, props)
    case "mossy_cobblestone_slab" => SlabOf(MossyCobble, props)
    case "stone_brick_slab" => SlabOf(Stonebrick, props)
    case "mossy_stone_brick_slab" => SlabOf(MossyStonebrick, props)
    case "blackstone_slab" => SlabOf(Blackstone, props)
    case "polished_blackstone_slab" => SlabOf(PolishedBlackstone, props)
    case "oak_stairs" => StairOf(Wood(Oak), props)
    case "spruce_stairs" => StairOf(Wood(Spruce), props)
    case "birch_stairs" => StairOf(Wood(Birch), props)
    case "jungle_stairs" => StairOf(Wood(Jungle), props)
    case "acacia_stairs" => StairOf(Wood(Acacia), props)
    case "dark_oak_stairs" => StairOf(Wood(DarkOak), props)
    case "stone_brick_stairs" => StairOf(Stonebrick, props)
    case "blackstone_stairs" => StairOf(Blackstone, props)
    case "terracotta" => Found(Terracotta(None))
    case "white_terracotta" => Found(Terracotta(Some(White)))
    case "orange_terracotta" => Found(Terracotta(Some(Orange)))
    case "magenta_terracotta" => Found(Terracotta(Some(Magenta)))
    case "light_blue_terracotta" => Found(Terracotta(Some(LightBlue)))
    case "yellow_terracotta" => Found(Terracotta(Some(Yellow)))
    case "lime_terracotta" => Found(Terracotta(Some(Lime)))
    case "pink_terracotta" => Found(Terracotta(Some(Pink)))
    case "gray_terracotta" => Found(Terracotta(Some(Gray)))
    case "light_gray_terracotta" => Found(Terracotta(Some(LightGray)))
    case "cyan_terracotta" => Found(Terracotta(Some(Cyan)))
    case "purple_terracotta" => Found(Terracotta(Some(Purple)))
    case "blue_terracotta" => Found(Terracotta(Some(Blue)))
    case "brown_terracotta" => Found(Terracotta(Some(Brown)))
    case "green_terracotta" => Found(Terracotta(Some(Green)))
    case "red_terracotta" => Found(Terracotta(Some(Red)))
    case "black_terracotta" => Found(Terracotta(Some(Black)))
    case "cauldron" => CauldronOf(props)
    case "bell" => BellOf(props)
    case "red_wall_banner" => WallBannerOf(Red, props)
    case "white_wall_banner" => WallBannerOf(Red, props)
    case "blue_wall_banner" => WallBannerOf(Red, props)
    case "green_wall_banner" => WallBannerOf(Red, props)
    case "yellow_wall_banner" => WallBannerOf(Red, props)
    case _ => Unrecognised
  }

  /** `KnownNames` covers the table: any other name is unrecognised. */
  lemma OutsideTableUnrecognised(name: string, props: Compound)
    requires name !in KnownNames
    ensures KnownBlock(name, props) == Unrecognised
  {
  }

  /** The decoding of a stripped name and its properties: the table first, then an inline
      `Other` holding the name and the string properties. */
  function DecodeState(name: string, props: Compound): Result<Block> {
    match KnownBlock(name, props)
    case Found(b) => Ok(b)
    case Fatal(reason) => Panic(reason)
    case Unrecognised =>
      match StringProps(props)
      case Ok(pairs) => Ok(Other(Blockstate(name, pairs)))
      case Panic(reason) => Panic(reason)
  }

  /** `Block::from_nbt`: the name must be present; the `minecraft:` prefix is dropped and a
      missing `Properties` compound reads as empty. */
  function FromNbt(nbt: Compound): Result<Block> {
    match GetStr(nbt, "Name")
    case None => Panic("Invalid block: no name")
    case Some(rawName) =>
      DecodeState(StripPrefix(rawName, "minecraft:"),
                  match GetCompound(nbt, "Properties") case Some(p) => p case None => [])
  }

  /** `Block::solid`. */
  predicate Solid(b: Block) {
    !(b.Air? || b.Water? || b.Lava? || b.GroundPlant? || b.Leaves? || b.SnowLayer?)
  }

  /** `Block::rotated`: a horizontal log axis flips between x and z (whatever the number of
      turns); stairs, wall banners and repeaters turn their facing. */
  function Rotated(b: Block, turns: u8): Block {
    match b
    case Log(species, Normal(axis)) =>
      if axis == Axis.X then Log(species, Normal(Axis.Z))
      else if axis == Axis.Z then Log(species, Normal(Axis.X))
      else b
    case Stair(material, facing, flipped) => Stair(material, facing.Rotated(turns), flipped)
    case WallBanner(facing, color) => WallBanner(facing.Rotated(turns), color)
    case Repeater(facing, delay) => Repeater(facing.Rotated(turns), delay)
    case _ => b
  }

  // ---------------------------------------------------------------------------------------
  // Properties of the block model

  /** Encoding can fail only on an out-of-range cauldron level or repeater delay. */
  lemma BlockstateDefinedExceptCounters(b: Block)
    requires !(b.Cauldron? && b.water > 3) && !(b.Repeater? && !(1 <= b.delay <= 4))
    ensures ToBlockstate(b).Ok? && ToNbt(b).Ok?
  {
  }

  /** Rotation never changes whether a block is solid nor its variant; a log keeps its
      species, swaps an x axis for z and back, and keeps a y axis or full bark; every block
      other than a log, a stair, a wall banner or a repeater is left as it is. */
  lemma RotationPreservesKind(b: Block, turns: u8)
    ensures Solid(Rotated(b, turns)) == Solid(b)
    ensures Rotated(b, turns).Log? == b.Log?
    ensures b.Log? ==> Rotated(b, turns).species == b.species
    ensures b.Log? ==>
      Rotated(b, turns).logType
        == (if b.logType == Normal(Axis.X) then Normal(Axis.Z)
            else if b.logType == Normal(Axis.Z) then Normal(Axis.X)
            else b.logType)
    ensures !(b.Stair? || b.WallBanner? || b.Repeater? || b.Log?) ==> Rotated(b, turns) == b
  {
  }

  /** Stairs, wall banners and repeaters turn their facing by the given number of quarter
      turns and keep everything else. */
  lemma RotatedFacing(b: Block, turns: u8)
    requires b.Stair? || b.WallBanner? || b.Repeater?
    ensures Rotated(b, turns) == b.(facing := b.facing.Rotated(turns))
  {
  }

  /** A log's axis is unaffected by a second rotation (x and z swap back, y stays), and
      for every other block two rotations compose into one. */
  lemma RotatedTwice(b: Block, a: u8, c: u8)
    requires a + c < 256
    ensures b.Log? ==> Rotated(Rotated(b, a), c) == b
    ensures !b.Log? ==> Rotated(Rotated(b, a), c) == Rotated(b, a + c)
  {
    match b
    case Stair(_, facing, _) => Geometry.RotatedTwice(facing, a, c);
    case WallBanner(facing, _) => Geometry.RotatedTwice(facing, a, c);
    case Repeater(facing, _) => Geometry.RotatedTwice(facing, a, c);
    case _ =>
  }

  /** `tile_entity_nbt` is present exactly for bells, wall banners and command blocks;
      it records the absolute position, and a command block's record holds its command. */
  lemma TileEntityShape(b: Block, pos: Pos)
    ensures TileEntityNbt(b, pos).Some? <==> b.Bell? || b.WallBanner? || b.CommandBlock?
    ensures TileEntityNbt(b, pos).Some? ==>
      var t := TileEntityNbt(b, pos).value;
      GetInt(t, "x") == Some(pos.x) && GetInt(t, "y") == Some(pos.y) && GetInt(t, "z") == Some(pos.z)
    ensures b.CommandBlock? ==> GetStr(TileEntityNbt(b, pos).value, "Command") == Some(b.command)
  {
    if b.CommandBlock? {
      var base := TileEntityBase(b).value;
      assert base[1..] == [("Command", TString(b.command)), ("TrackOutput", TByte(0))];
      assert Get(base, "Command") == Some(TString(b.command));
      assert "Command" !in {"x", "y", "z"};
    }
  }

  /** Reading back what `to_nbt` wrote hands the decoder the state's own name and its
      properties as a compound. */
  lemma FromNbtOfToNbt(b: Block)
    requires ToBlockstate(b).Ok?
    requires !StartsWith(ToBlockstate(b).value.name, "minecraft:")
    ensures FromNbt(ToNbt(b).value)
         == DecodeState(ToBlockstate(b).value.name, PropsCompound(ToBlockstate(b).value.props))
  {
    var state := ToBlockstate(b).value;
    GetPair("Name", TString(state.name), "Properties", TCompound(PropsCompound(state.props)), "Name");
    GetPair("Name", TString(state.name), "Properties", TCompound(PropsCompound(state.props)), "Properties");
  }

  /** The `axis` property of the six overworld logs: x, y and z give a `Normal` log, none
      gives full bark, and any other value panics. */
  lemma LogAxisDecoding(species: TreeSpecies, axis: string)
    requires species != Warped && species != Crimson
    ensures
      var r := DecodeState(SpeciesStr(species) + "_log", [("axis", TString(axis))]);
      && (axis == "x" ==> r == Ok(Log(species, Normal(Axis.X))))
      && (axis == "y" ==> r == Ok(Log(species, Normal(Axis.Y))))
      && (axis == "z" ==> r == Ok(Log(species, Normal(Axis.Z))))
      && (axis == "none" ==> r == Ok(Log(species, FullBark)))
      && (axis !in {"x", "y", "z", "none"} ==> r.Panic?)
  {
    var props := [("axis", TString(axis))];
    GetPair("axis", TString(axis), "", TString(""), "axis");
    match species
    case Oak => assert SpeciesStr(species) + "_log" == "oak_log";
    case Spruce => assert SpeciesStr(species) + "_log" == "spruce_log";
    case Birch => assert SpeciesStr(species) + "_log" == "birch_log";
    case Jungle => assert SpeciesStr(species) + "_log" == "jungle_log";
    case Acacia => assert SpeciesStr(species) + "_log" == "acacia_log";
    case DarkOak => assert SpeciesStr(species) + "_log" == "dark_oak_log";
  }

  /** A name outside the table decodes to `Other`, carrying exactly the stripped name and
      the string properties; a non-string property value panics. */
  lemma UnknownNameDecodesToOther(nbt: Compound, rawName: string)
    requires GetStr(nbt, "Name") == Some(rawName)
    requires StripPrefix(rawName, "minecraft:") !in KnownNames
    ensures
      var props := match GetCompound(nbt, "Properties") case Some(p) => p case None => [];
      && (StringProps(props).Ok? ==>
            FromNbt(nbt) == Ok(Other(Blockstate(StripPrefix(rawName, "minecraft:"), StringProps(props).value))))
      && (StringProps(props).Panic? ==> FromNbt(nbt).Panic?)
  {
    var props := match GetCompound(nbt, "Properties") case Some(p) => p case None => [];
    OutsideTableUnrecognised(StripPrefix(rawName, "minecraft:"), props);
  }

  /** An unknown state survives encoding and decoding, provided its name is not in the
      table, does not carry the `minecraft:` prefix, and its property names are distinct. */
  lemma OtherRoundTrip(state: Blockstate)
    requires state.name !in KnownNames
    requires !StartsWith(state.name, "minecraft:")
    requires forall i, j :: 0 <= i < j < |state.props| ==> state.props[i].0 != state.props[j].0
    ensures ToNbt(Other(state)).Ok? && FromNbt(ToNbt(Other(state)).value) == Ok(Other(state))
  {
    FromNbtOfToNbt(Other(state));
    OutsideTableUnrecognised(state.name, PropsCompound(state.props));
    PropsCompoundDistinct(state.props);
    var pairs := StringProps(PropsCompound(state.props));
    assert pairs.Ok?;
    assert pairs.value == state.props;
  }

  /** The table reads a cauldron's `level` back as its fill level. */
  lemma CauldronStateDecodes(water: u8)
    requires water <= 3
    ensures DecodeState("cauldron", [("level", TString([DigitChar(water)]))]) == Ok(Cauldron(water))
  {
    assert [DigitChar(water)] == NatToString(water);
    ParseU8OfToString(water);
    GetPair("level", TString([DigitChar(water)]), "", TString(""), "level");
  }

  /** A cauldron with fill level 0..=3 survives encoding and decoding. */
  lemma CauldronRoundTrip(water: u8)
    requires water <= 3
    ensures ToNbt(Cauldron(water)).Ok?
    ensures FromNbt(ToNbt(Cauldron(water)).value) == Ok(Cauldron(water))
  {
    FromNbtOfToNbt(Cauldron(water));
    PropsCompoundSingle("level", [DigitChar(water)]);
    CauldronStateDecodes(water);
  }

  /** A `Normal` log of the six overworld species survives encoding and decoding. */
  lemma LogRoundTrip(species: TreeSpecies, axis: Axis)
    requires species != Warped && species != Crimson
    ensures ToNbt(Log(species, Normal(axis))).Ok?
    ensures FromNbt(ToNbt(Log(species, Normal(axis))).value) == Ok(Log(species, Normal(axis)))
  {
    NotStartsWith(SpeciesStr(species) + "_log", "minecraft:", 0);
    FromNbtOfToNbt(Log(species, Normal(axis)));
    assert PropsCompound([("axis", axis.ToStr())]) == [("axis", TString(axis.ToStr()))];
    LogAxisDecoding(species, axis.ToStr());
  }

  /** The table has no `acacia_leaves` entry, so that state is kept as an unknown one. */
  lemma AcaciaLeavesStateUnknown()
    ensures DecodeState("acacia_leaves", [("persistent", TString("true"))])
         == Ok(Other(Blockstate("acacia_leaves", [("persistent", "true")])))
  {
    var props := [("persistent", TString("true"))];
    assert KnownBlock("acacia_leaves", props) == Unrecognised;
    assert props[1..] == [];
    assert StringProps(props[1..]) == Ok([]);
    assert [("persistent", "true")] + [] == [("persistent", "true")];
  }

  /** As written, an acacia leaf block does not survive: the table spells it `acacie`. */
  lemma AcaciaLeavesDecodeAsOther()
    ensures FromNbt(ToNbt(Leaves(Acacia)).value) == Ok(Other(Blockstate("acacia_leaves", [("persistent", "true")])))
  {
    assert SpeciesStr(Acacia) + "_leaves" == "acacia_leaves";
    NotStartsWith("acacia_leaves", "minecraft:", 0);
    FromNbtOfToNbt(Leaves(Acacia));
    PropsCompoundSingle("persistent", "true");
    AcaciaLeavesStateUnknown();
  }

  // ---------------------------------------------------------------------------------------
  // Display of a block state

  function PropText(p: (string, string)): string {
    p.0 + "=" + p.1
  }

  /** The properties joined by commas, with none after the last. */
  function JoinProps(props: seq<(string, string)>): string {
    if |props| == 0 then ""
    else if |props| == 1 then PropText(props[0])
    else JoinProps(props[..|props| - 1]) + "," + PropText(props[|props| - 1])
  }

  /** What `Display` prints: the name, then `[k=v,...]` only when there are properties. */
  function Render(state: Blockstate): string {
    state.name + if |state.props| > 0 then "[" + JoinProps(state.props) + "]" else ""
  }

  /** `impl Display for Blockstate`: the formatter loop. */
  method Display(state: Blockstate) returns (out: string)
    ensures out == Render(state)
  {
    out := state.name;
    var n := |state.props|;
    if n > 0 {
      out := out + "[";
      var i := 0;
      while i < n
        invariant 0 <= i <= n
        invariant out == state.name + "[" + JoinProps(state.props[..i]) + (if 0 < i < n then "," else "")
      {
        var p := state.props[i];
        assert state.props[..i + 1][..i] == state.props[..i];
        out := out + PropText(p);
        if i + 1 < n {
          out := out + ",";
        }
        i := i + 1;
      }
      assert state.props[..n] == state.props;
      out := out + "]";
    }
  }

  /** When no name or value contains a comma, the rendering has exactly one comma fewer
      than there are properties: no trailing comma. */
  lemma {:induction false} JoinPropsCommas(props: seq<(string, string)>)
    requires |props| > 0
    requires forall i :: 0 <= i < |props| ==> Count(PropText(props[i]), ',') == 0
    ensures Count(JoinProps(props), ',') == |props| - 1
    decreases |props|
  {
    if |props| > 1 {
      var init := props[..|props| - 1];
      JoinPropsCommas(init);
      CountAppend(JoinProps(init), ",", ',');
      CountAppend(JoinProps(init) + ",", PropText(props[|props| - 1]), ',');
    }
  }

  /** A state without properties prints as its bare name; one with properties ends in `]`
      and has |props| - 1 separating commas of its own. */
  lemma RenderShape(state: Blockstate)
    requires Count(state.name, ',') == 0
    requires forall i :: 0 <= i < |state.props| ==> Count(PropText(state.props[i]), ',') == 0
    ensures |state.props| == 0 ==> Render(state) == state.name
    ensures |state.props| > 0 ==>
      Render(state)[|Render(state)| - 1] == ']' && Count(Render(state), ',') == |state.props| - 1
  {
    if |state.props| > 0 {
      var open := state.name + "[";
      var body := JoinProps(state.props);
      assert Render(state) == open + body + "]";
      assert Count("[", ',') == 0 by {
        assert "["[..0] == [];
      }
      assert Count("]", ',') == 0 by {
        assert "]"[..0] == [];
      }
      JoinPropsCommas(state.props);
      CountAppend(state.name, "[", ',');
      CountAppend(open, body, ',');
      CountAppend(open + body, "]", ',');
    }
  }
}
