/** The newer block layout (src/level/block.rs): a closed sum type of voxels whose unknown
    case is an index into a deduplicating registry of named states, the encoder to named
    states (which needs that registry), the partial decoder with its fixed table of known
    names, and the classification predicates and transforms. In this layout `z` is the
    vertical axis. */
module LevelBlock {

  import opened Common
  import opened Geometry
  import opened Nbt
  import opened BlockKinds

  datatype TreeSpecies =
    | Oak | Spruce | Birch | Jungle | Acacia | DarkOak | Warped | Crimson | Mangrove | Cherry
    | Azalea | FloweringAzalea

  function SpeciesStr(s: TreeSpecies): string {
    match s
    case Oak => "oak"
    case Spruce => "spruce"
    case Birch => "birch"
    case Jungle => "jungle"
    case Acacia => "acacia"
    case DarkOak => "dark_oak"
    case Warped => "warped"
    case Crimson => "crimson"
    case Mangrove => "mangrove"
    case Cherry => "cherry"
    case Azalea => "azalea"
    case FloweringAzalea => "flowering_azalea"
  }

  datatype LogType = Normal(axis: Axis) | FullBark | Stripped(axis: Axis)

  datatype GroundPlantKind =
    | Sapling(sapling: TreeSpecies)
    | Cactus
    | Reeds
    | Pumpkin
    | Crop(crop: CropType)

  datatype SmallPlantKind =
    | Grass | DeadBush | Fern | BrownMushroom | RedMushroom | Dandelion | Poppy | Cornflower
    | BlueOrchid | Allium | AzureBluet | RedTulip | OrangeTulip | WhiteTulip | PinkTulip
    | OxeyeDaisy | Seagrass

  datatype TallPlantKind = Grass | Fern | Sunflower | Lilac | Rose | Peony | Seagrass

  datatype Half = Bottom | Top

  datatype Material =
    | Stone | SmoothStone | Granite | PolishedGranite | Diorite | PolishedDiorite | Andesite
    | PolishedAndesite
    | Wood(species: TreeSpecies)
    | Cobble | MossyCobble | StoneBrick | MossyStonebrick | Brick | Sandstone | SmoothSandstone
    | RedSandstone | SmoothRedSandstone | Blackstone | PolishedBlackstone | PolishedBlackstoneBrick
    | MudBrick

  function MaterialStr(m: Material): string {
    match m
    case Stone => "stone"
    case SmoothStone => "smooth_stone"
    case Diorite => "diorite"
    case PolishedDiorite => "polished_diorite"
    case Granite => "granite"
    case PolishedGranite => "polished_granite"
    case Andesite => "andesite"
    case PolishedAndesite => "polished_andesite"
    case Wood(species) => SpeciesStr(species)
    case Cobble => "cobblestone"
    case MossyCobble => "mossy_cobblestone"
    case Brick => "brick"
    case StoneBrick => "stone_brick"
    case MossyStonebrick => "mossy_stone_brick"
    case Sandstone => "sandstone"
    case SmoothSandstone => "smooth_sandstone"
    case RedSandstone => "red_sandstone"
    case SmoothRedSandstone => "smooth_red_sandstone"
    case Blackstone => "blackstone"
    case PolishedBlackstone => "polished_blackstone"
    case PolishedBlackstoneBrick => "polished_blackstone_brick"
    case MudBrick => "mud_brick"
  }

  /** The two bit flags of a door or trapdoor (`TOP` = 0b01, `OPEN` = 0b10). */
  datatype DoorMeta = DoorMeta(top: bool, open: bool)

  datatype Blockstate = Blockstate(name: string, props: seq<(string, string)>)

  datatype Block =
    | Air
    | Full(material: Material)
    | Slab(material: Material, half: Half)
    | Stair(material: Material, facing: HDir, half: Half)
    | Fence(material: Material)
    | Ladder(facing: HDir)
    | Water
    | Lava
    | Dirt
    | Grass
    | Sand
    | Gravel
    | Farmland
    | Path
    | Podzol
    | CoarseDirt
    | SoulSand
    | PackedMud
    | Log(species: TreeSpecies, logType: LogType)
    /** The distance from a log, when the leaves are not persistent. */
    | Leaves(species: TreeSpecies, distance: Option<i8>)
    | SmallPlant(small: SmallPlantKind)
    | TallPlant(tall: TallPlantKind, half: Half)
    | GroundPlant(plant: GroundPlantKind)
    | Wool(color: Color)
    | Terracotta(tint: Option<Color>)
    | MushroomStem
    | MangroveRoots
    | MuddyMangroveRoots
    | SmoothQuartz
    | SnowLayer
    | Glowstone
    | GlassPane(tint: Option<Color>)
    | WallBanner(facing: HDir, color: Color)
    | Hay
    | Cauldron(water: u8)
    | Barrel
    | Trapdoor(species: TreeSpecies, facing: HDir, meta: DoorMeta)
    | Door(species: TreeSpecies, facing: HDir, meta: DoorMeta)
    | Bell(facing: HDir, attachment: BellAttachment)
    | Repeater(facing: HDir, delay: u8)
    | Rail(axis: HAxis)
    | Barrier
    | Bedrock
    | CraftingTable
    | Stonecutter(axis: HAxis)
    /** An index into the registry of unknown states. */
    | Other(index: u16)

  function Named(name: string): Blockstate {
    Blockstate(name, [])
  }

  function BoolStr(b: bool): string {
    if b then "true" else "false"
  }

  function SmallPlantStr(p: SmallPlantKind): string {
    match p
    case Grass => "grass"
    case Fern => "fern"
    case DeadBush => "dead_bush"
    case Dandelion => "dandelion"
    case Poppy => "poppy"
    case Cornflower => "cornflower"
    case BlueOrchid => "blue_orchid"
    case Allium => "allium"
    case AzureBluet => "azure_bluet"
    case RedTulip => "red_tulip"
    case OrangeTulip => "orange_tulip"
    case WhiteTulip => "white_tulip"
    case PinkTulip => "pink_tulip"
    case OxeyeDaisy => "oxeye_daisy"
    case BrownMushroom => "brown_mushroom"
    case RedMushroom => "red_mushroom"
    case Seagrass => "seagrass"
  }

  function TallPlantStr(p: TallPlantKind): string {
    match p
    case Sunflower => "sunflower"
    case Lilac => "lilac"
    case Grass => "tall_grass"
    case Fern => "large_fern"
    case Rose => "rose_bush"
    case Peony => "peony"
    case Seagrass => "tall_seagrass"
  }

  function HalfStr(h: Half): string {
    match h
    case Top => "top"
    case Bottom => "bottom"
  }

  // The encoder's `{color}_terracotta`, `{color}_wall_banner` and `{species}_leaves`,
  // spelled out name by name (the `...NameSpelling` lemmas below show each is the
  // formatted string).

  function TerracottaName(c: Color): string {
    match c
    case White => "white_terracotta"
    case Orange => "orange_terracotta"
    case Magenta => "magenta_terracotta"
    case LightBlue => "light_blue_terracotta"
    case Yellow => "yellow_terracotta"
    case Lime => "lime_terracotta"
    case Pink => "pink_terracotta"
    case Gray => "gray_terracotta"
    case LightGray => "light_gray_terracotta"
    case Cyan => "cyan_terracotta"
    case Purple => "purple_terracotta"
    case Blue => "blue_terracotta"
    case Brown => "brown_terracotta"
    case Green => "green_terracotta"
    case Red => "red_terracotta"
    case Black => "black_terracotta"
  }

  function WallBannerName(c: Color): string {
    match c
    case White => "white_wall_banner"
    case Orange => "orange_wall_banner"
    case Magenta => "magenta_wall_banner"
    case LightBlue => "light_blue_wall_banner"
    case Yellow => "yellow_wall_banner"
    case Lime => "lime_wall_banner"
    case Pink => "pink_wall_banner"
    case Gray => "gray_wall_banner"
    case LightGray => "light_gray_wall_banner"
    case Cyan => "cyan_wall_banner"
    case Purple => "purple_wall_banner"
    case Blue => "blue_wall_banner"
    case Brown => "brown_wall_banner"
    case Green => "green_wall_banner"
    case Red => "red_wall_banner"
    case Black => "black_wall_banner"
  }

  function LeavesName(s: TreeSpecies): string {
    match s
    case Oak => "oak_leaves"
    case Spruce => "spruce_leaves"
    case Birch => "birch_leaves"
    case Jungle => "jungle_leaves"
    case Acacia => "acacia_leaves"
    case DarkOak => "dark_oak_leaves"
    case Warped => "warped_leaves"
    case Crimson => "crimson_leaves"
    case Mangrove => "mangrove_leaves"
    case Cherry => "cherry_leaves"
    case Azalea => "azalea_leaves"
    case FloweringAzalea => "flowering_azalea_leaves"
  }

  function LogState(species: TreeSpecies, logType: LogType): Blockstate {
    var nether := species == Warped || species == Crimson;
    match logType
    case Normal(axis) =>
      Blockstate(SpeciesStr(species) + (if nether then "_stem" else "_log"), [("axis", axis.ToStr())])
    case FullBark =>
      Named(SpeciesStr(species) + (if nether then "_hyphae" else "_wood"))
    case Stripped(axis) =>
      Blockstate(if nether then SpeciesStr(species) + "_stem" else "stripped_" + SpeciesStr(species) + "_log",
                 [("axis", axis.ToStr())])
  }

  function LeavesProps(distance: Option<i8>): seq<(string, string)> {
    match distance
    case Some(d) => [("persistent", "false"), ("distance", IntToString(d))]
    case None => [("persistent", "true")]
  }

  /** `Block::blockstate`: the named state of a block, reading unknown states from the
      registry. It panics on a cauldron fill level above 3, on a repeater delay outside
      1..=4, and on an index the registry does not hold. */
  function ToBlockstate(b: Block, unknown: seq<Blockstate>): (r: Result<Blockstate>)
    ensures r.Panic? <==>
      || (b.Cauldron? && b.water > 3)
      || (b.Repeater? && !(1 <= b.delay <= 4))
      || (b.Other? && b.index >= |unknown|)
    ensures b.Other? && b.index < |unknown| ==> r == Ok(unknown[b.index])
  {
    match b
    case Air => Ok(Named("air"))
    case Full(material) =>
      Ok(Named(match material
        case Wood(species) => SpeciesStr(species) + "_planks"
        case Brick => "bricks"
        case StoneBrick => "stone_bricks"
        case MudBrick => "mud_bricks"
        case PolishedBlackstoneBrick => "polished_blackstone_bricks"
        case _ => MaterialStr(material)))
    case Grass => Ok(Named("grass_block"))
    case Dirt => Ok(Named("dirt"))
    case Sand => Ok(Named("sand"))
    case Gravel => Ok(Named("gravel"))
    case Farmland => Ok(Named("farmland"))
    case Path => Ok(Named("grass_path"))
    case CoarseDirt => Ok(Named("coarse_dirt"))
    case Podzol => Ok(Named("podzol"))
    case SoulSand => Ok(Named("soul_sand"))
    case PackedMud => Ok(Named("packed_mud"))
    case Bedrock => Ok(Named("bedrock"))
    case Water => Ok(Named("water"))
    case Lava => Ok(Named("lava"))
    case Log(species, logType) => Ok(LogState(species, logType))
    case Leaves(species, distance) => Ok(Blockstate(LeavesName(species), LeavesProps(distance)))
    case SmallPlant(plant) => Ok(Named(SmallPlantStr(plant)))
    case TallPlant(plant, half) =>
      Ok(Blockstate(TallPlantStr(plant), [("half", match half case Top => "upper" case Bottom => "lower")]))
    case GroundPlant(plant) =>
      Ok(match plant
        case Sapling(species) => Named(SpeciesStr(species) + "_sapling")
        case Cactus => Named("cactus")
        case Reeds => Named("sugar_cane")
        case Pumpkin => Named("pumpkin")
        case Crop(crop) => Blockstate(CropState(crop).0, [("age", CropState(crop).1)]))
    case Fence(material) =>
      Ok(Named(match material
        case Wood(species) => SpeciesStr(species) + "_fence"
        case _ => MaterialStr(material) + "_wall"))
    case Ladder(facing) => Ok(Blockstate("ladder", [("facing", facing.ToStr())]))
    case Wool(color) => Ok(Named(ColorStr(color) + "_wool"))
    case Terracotta(tint) =>
      Ok(Named(match tint
        case Some(color) => TerracottaName(color)
        case None => "terracotta"))
    case MushroomStem => Ok(Named("mushroom_stem"))
    case MangroveRoots => Ok(Named("mangrove_roots"))
    case MuddyMangroveRoots => Ok(Named("muddy_mangrove_roots"))
    case SmoothQuartz => Ok(Named("smooth_quartz"))
    case SnowLayer => Ok(Blockstate("snow", [("layers", "1")]))
    case Glowstone => Ok(Named("glowstone"))
    case GlassPane(tint) =>
      Ok(Named(match tint
        case Some(color) => ColorStr(color) + "_stained_glass_pane"
        case None => "glass_pane"))
    case WallBanner(facing, color) =>
      Ok(Blockstate(WallBannerName(color), [("facing", facing.ToStr())]))
    case Hay => Ok(Named("hay_block"))
    case Slab(material, half) =>
      Ok(Blockstate(MaterialStr(material) + "_slab", [("type", HalfStr(half))]))
    case Stair(material, facing, half) =>
      Ok(Blockstate(MaterialStr(material) + "_stairs", [("half", HalfStr(half)), ("facing", facing.ToStr())]))
    case Cauldron(water) =>
      if water <= 3 then Ok(Blockstate("cauldron", [("level", [DigitChar(water)])]))
      else Panic("Cauldron water level")
    case Barrel => Ok(Named("barrel"))
    case Trapdoor(species, facing, meta) =>
      Ok(Blockstate(SpeciesStr(species) + "_trapdoor", [
        ("facing", facing.ToStr()),
        ("half", if meta.top then "top" else "bottom"),
        ("open", BoolStr(meta.open))]))
    case Door(species, facing, meta) =>
      Ok(Blockstate(SpeciesStr(species) + "_door", [
        ("facing", facing.ToStr()),
        ("half", if meta.top then "upper" else "lower"),
        ("open", BoolStr(meta.open))]))
    case Bell(facing, attachment) =>
      Ok(Blockstate("bell", [("facing", facing.ToStr()), ("attachment", AttachmentStr(attachment))]))
    case Repeater(facing, delay) =>
      if 1 <= delay <= 4 then
        Ok(Blockstate("repeater", [("delay", [DigitChar(delay)]), ("facing", facing.ToStr())]))
      else Panic("Repeater delay")
    case Rail(axis) =>
      Ok(Blockstate("rail", [("shape", match axis case X => "north_south" case Y => "east_west")]))
    case Barrier => Ok(Named("barrier"))
    case CraftingTable => Ok(Named("crafting_table"))
    case Stonecutter(axis) =>
      Ok(Blockstate("stonecutter", [("facing", match axis case X => "south" case Y => "east")]))
    case Other(index) =>
      if index < |unknown| then Ok(unknown[index]) else Panic("unknown block index out of bounds")
  }

  /** The record of a state: the name, and a `Properties` compound only when there are
      properties. */
  function StateNbt(state: Blockstate): Compound {
    [("Name", TString(state.name))]
    + if |state.props| > 0 then [("Properties", TCompound(PropsCompound(state.props)))] else []
  }

  /** `Block::to_nbt`. */
  function ToNbt(b: Block, unknown: seq<Blockstate>): Result<Compound> {
    match ToBlockstate(b, unknown)
    case Panic(reason) => Panic(reason)
    case Ok(state) => Ok(StateNbt(state))
  }

  /** `Block::tile_entity_nbt`: bells and wall banners carry a record whose `y` tag holds
      the vertical coordinate (`pos.z`) and whose `z` tag holds `pos.y`. */
  function TileEntityNbt(b: Block, pos: Pos): Option<Compound> {
    var base :=
      match b
      case Bell(_, _) => Some([("id", TString("bell"))])
      case WallBanner(_, _) => Some([("id", TString("banner"))])
      case _ => None;
    match base
    case None => None
    case Some(nbt) => Some(WithCoords(nbt, pos.x, pos.z, pos.y))
  }

  // ---------------------------------------------------------------------------------------
  // Decoding

  datatype Lookup = Found(block: Block) | Unrecognised | Fatal(reason: string)

  /** `get_str(..).unwrap()`. */
  function Required(props: Compound, key: string): Result<string> {
    match GetStr(props, key)
    case Some(s) => Ok(s)
    case None => Panic("missing property")
  }

  /** `HDir::from_str(props.get_str("facing").unwrap()).unwrap()`. */
  function FacingOf(props: Compound): Result<HDir> {
    match Required(props, "facing")
    case Panic(reason) => Panic(reason)
    case Ok(f) =>
      match HDirFromStr(f)
      case Some(d) => Ok(d)
      case None => Panic("invalid facing")
  }

  /** `half`: `upper` and `top` are the top half, any other value the bottom half. */
  function HalfOf(props: Compound): Result<Half> {
    match Required(props, "half")
    case Panic(reason) => Panic(reason)
    case Ok(h) => Ok(if h == "upper" || h == "top" then Top else Bottom)
  }

  function SlabOf(material: Material, props: Compound): Lookup {
    match Required(props, "type")
    case Panic(reason) => Fatal(reason)
    case Ok(t) =>
      if t == "top" then Found(Slab(material, Top))
      else if t == "double" then Found(Full(material))
      else Found(Slab(material, Bottom))
  }

  function StairOf(material: Material, props: Compound): Lookup {
    match FacingOf(props)
    case Panic(reason) => Fatal(reason)
    case Ok(facing) =>
      match HalfOf(props)
      case Panic(reason) => Fatal(reason)
      case Ok(half) => Found(Stair(material, facing, half))
  }

  /** Non-persistent leaves must carry a distance that parses as an `i8`. */
  function LeavesOf(species: TreeSpecies, props: Compound): Lookup {
    match Required(props, "persistent")
    case Panic(reason) => Fatal(reason)
    case Ok(p) =>
      if p == "false" then
        match Required(props, "distance")
        case Panic(reason) => Fatal(reason)
        case Ok(d) =>
          match ParseI8(d)
          case None => Fatal("invalid leaf distance")
          case Some(v) => Found(Leaves(species, Some(v)))
      else Found(Leaves(species, None))
  }

  function WallBannerOf(color: Color, props: Compound): Lookup {
    match FacingOf(props)
    case Panic(reason) => Fatal(reason)
    case Ok(facing) => Found(WallBanner(facing, color))
  }

  /** The two flags of a door or trapdoor; `topName` is the `half` value meaning top. */
  function DoorMetaOf(props: Compound, topName: string): Result<DoorMeta> {
    match Required(props, "half")
    case Panic(reason) => Panic(reason)
    case Ok(h) =>
      match Required(props, "open")
      case Panic(reason) => Panic(reason)
      case Ok(o) => Ok(DoorMeta(h == topName, o == "true"))
  }

  function TrapdoorOf(species: TreeSpecies, props: Compound): Lookup {
    match FacingOf(props)
    case Panic(reason) => Fatal(reason)
    case Ok(facing) =>
      match DoorMetaOf(props, "top")
      case Panic(reason) => Fatal(reason)
      case Ok(meta) => Found(Trapdoor(species, facing, meta))
  }

  function DoorOf(species: TreeSpecies, props: Compound): Lookup {
    match FacingOf(props)
    case Panic(reason) => Fatal(reason)
    case Ok(facing) =>
      match DoorMetaOf(props, "upper")
      case Panic(reason) => Fatal(reason)
      case Ok(meta) => Found(Door(species, facing, meta))
  }

  /** `log_axis`: the `axis` property must parse as an axis. */
  function LogOf(species: TreeSpecies, props: Compound, stripped: bool): Lookup {
    match Required(props, "axis")
    case Panic(reason) => Fatal(reason)
    case Ok(a) =>
      match AxisFromStr(a)
      case None => Fatal("invalid log axis")
      case Some(axis) => Found(Log(species, if stripped then Stripped(axis) else Normal(axis)))
  }

  function TallPlantOf(plant: TallPlantKind, props: Compound): Lookup {
    match HalfOf(props)
    case Panic(reason) => Fatal(reason)
    case Ok(half) => Found(TallPlant(plant, half))
  }

  /** Only a still water source (`level` 0) is water; flowing water reads as air. */
  function WaterOf(props: Compound): Lookup {
    Found(if GetStr(props, "level") == Some("0") then Water else Air)
  }

  /** A missing `level` reads as "0"; a level that is not a `u8` panics. */
  function CauldronOf(props: Compound): Lookup {
    var level := match GetStr(props, "level") case Some(l) => l case None => "0";
    match ParseU8(level)
    case None => Fatal("invalid cauldron level")
    case Some(water) => Found(Cauldron(water))
  }

  function BellOf(props: Compound): Lookup {
    match FacingOf(props)
    case Panic(reason) => Fatal(reason)
    case Ok(facing) =>
      match Required(props, "attachment")
      case Panic(reason) => Fatal(reason)
      case Ok(a) => Found(Bell(facing, AttachmentFromStr(a)))
  }

  /** A `variant` other than `coarse_dirt` leaves `dirt` unrecognised. */
  function DirtOf(props: Compound): Lookup {
    match GetStr(props, "variant")
    case None => Found(Dirt)
    case Some(v) => if v == "coarse_dirt" then Found(CoarseDirt) else Unrecognised
  }

  function LadderOf(props: Compound): Lookup {
    match FacingOf(props)
    case Panic(reason) => Fatal(reason)
    case Ok(facing) => Found(Ladder(facing))
  }

  /** How one arm of the table reads the record's properties. */
  datatype Entry =
    | Plain(block: Block)
    | WaterEntry
    | DirtEntry
    | CauldronEntry
    | BellEntry
    | LadderEntry
    | LeavesEntry(species: TreeSpecies)
    | WallBannerEntry(color: Color)
    | LogEntry(species: TreeSpecies, stripped: bool)
    | TallPlantEntry(tall: TallPlantKind)
    | SlabEntry(material: Material)
    | StairEntry(material: Material)
    | TrapdoorEntry(species: TreeSpecies)
    | DoorEntry(species: TreeSpecies)

  /** The decoder's table (`known_block`), one arm per name. In the source it is a single
      `match` whose only repeated name is `dirt`, with two guarded arms that `DirtOf`
      merges; the names are otherwise distinct, so the order of the arms does not matter,
      and the terracotta, leaves, wall banner and slab arms are listed first. Plain cobblestone
      walls read as mossy ones and every wall banner as a red one, as in the source. */
  function TableEntry(name: string): Option<Entry> {
    match name
    case "terracotta" => Some(Plain(Terracotta(None)))
    case "white_terracotta" => Some(Plain(Terracotta(Some(White))))
    case "orange_terracotta" => Some(Plain(Terracotta(Some(Orange))))
    case "magenta_terracotta" => Some(Plain(Terracotta(Some(Magenta))))
    case "light_blue_terracotta" => Some(Plain(Terracotta(Some(LightBlue))))
    case "yellow_terracotta" => Some(Plain(Terracotta(Some(Yellow))))
    case "lime_terracotta" => Some(Plain(Terracotta(Some(Lime))))
    case "pink_terracotta" => Some(Plain(Terracotta(Some(Pink))))
    case "gray_terracotta" => Some(Plain(Terracotta(Some(Gray))))
    case "light_gray_terracotta" => Some(Plain(Terracotta(Some(LightGray))))
    case "cyan_terracotta" => Some(Plain(Terracotta(Some(Cyan))))
    case "purple_terracotta" => Some(Plain(Terracotta(Some(Purple))))
    case "blue_terracotta" => Some(Plain(Terracotta(Some(Blue))))
    case "brown_terracotta" => Some(Plain(Terracotta(Some(Brown))))
    case "green_terracotta" => Some(Plain(Terracotta(Some(Green))))
    case "red_terracotta" => Some(Plain(Terracotta(Some(Red))))
    case "black_terracotta" => Some(Plain(Terracotta(Some(Black))))
    case "oak_leaves" => Some(LeavesEntry(Oak))
    case "spruce_leaves" => Some(LeavesEntry(Spruce))
    case "birch_leaves" => Some(LeavesEntry(Birch))
    case "jungle_leaves" => Some(LeavesEntry(Jungle))
    case "acacie_leaves" => Some(LeavesEntry(Acacia))
    case "dark_oak_leaves" => Some(LeavesEntry(DarkOak))
    case "azalea_leaves" => Some(LeavesEntry(Azalea))
    case "flowering_azalea_leaves" => Some(LeavesEntry(FloweringAzalea))
    case "red_wall_banner" => Some(WallBannerEntry(Red))
    case "white_wall_banner" => Some(WallBannerEntry(Red))
    case "blue_wall_banner" => Some(WallBannerEntry(Red))
    case "green_wall_banner" => Some(WallBannerEntry(Red))
    case "yellow_wall_banner" => Some(WallBannerEntry(Red))
    case "oak_slab" => Some(SlabEntry(Wood(Oak)))
    case "spruce_slab" => Some(SlabEntry(Wood(Spruce)))
    case "birch_slab" => Some(SlabEntry(Wood(Birch)))
    case "jungle_slab" => Some(SlabEntry(Wood(Jungle)))
    case "acacia_slab" => Some(SlabEntry(Wood(Acacia)))
    case "dark_oak_slab" => Some(SlabEntry(Wood(DarkOak)))
    case "cobblestone_slab" => Some(SlabEntry(Cobble))
    case "mossy_cobblestone_slab" => Some(SlabEntry(MossyCobble))
    case "stone_brick_slab" => Some(SlabEntry(StoneBrick))
    case "mossy_stone_brick_slab" => Some(SlabEntry(MossyStonebrick))
    case "blackstone_slab" => Some(SlabEntry(Blackstone))
    case "polished_blackstone_slab" => Some(SlabEntry(PolishedBlackstone))
    case "mud_brick_slab" => Some(SlabEntry(MudBrick))
    case "cauldron" => Some(CauldronEntry)
    case "barrel" => Some(Plain(Barrel))
    case "oak_trapdoor" => Some(TrapdoorEntry(Oak))
    case "spruce_trapdoor" => Some(TrapdoorEntry(Spruce))
    case "oak_door" => Some(DoorEntry(Oak))
    case "spruce_door" => Some(DoorEntry(Spruce))
    case "bell" => Some(BellEntry)
    case "ladder" => Some(LadderEntry)
    case "air" => Some(Plain(Air))
    case "cave_air" => Some(Plain(Air))
    case "water" => Some(WaterEntry)
    case "tall_seagrass" => Some(Plain(Water))
    case "stone" => Some(Plain(Full(Stone)))
    case "granite" => Some(Plain(Full(Granite)))
    case "diorite" => Some(Plain(Full(Diorite)))
    case "andesite" => Some(Plain(Full(Andesite)))
    case "cobblestone" => Some(Plain(Full(Cobble)))
    case "bricks" => Some(Plain(Full(Brick)))
    case "stone_bricks" => Some(Plain(Full(StoneBrick)))
    case "mud_bricks" => Some(Plain(Full(MudBrick)))
    case "packed_pud" => Some(Plain(PackedMud))
    case "bedrock" => Some(Plain(Bedrock))
    case "gravel" => Some(Plain(Gravel))
    case "grass_block" => Some(Plain(Block.Grass))
    case "sand" => Some(Plain(Sand))
    case "dirt" => Some(DirtEntry)
    case "oak_planks" => Some(Plain(Full(Wood(Oak))))
    case "oak_log" => Some(LogEntry(Oak, false))
    case "spruce_log" => Some(LogEntry(Spruce, false))
    case "birch_log" => Some(LogEntry(Birch, false))
    case "jungle_log" => Some(LogEntry(Jungle, false))
    case "acacia_log" => Some(LogEntry(Acacia, false))
    case "dark_oak_log" => Some(LogEntry(DarkOak, false))
    case "mangrove_log" => Some(LogEntry(Mangrove, false))
    case "cherry_log" => Some(LogEntry(Cherry, false))
    case "stripped_oak_log" => Some(LogEntry(Oak, true))
    case "grass" => Some(Plain(SmallPlant(SmallPlantKind.Grass)))
    case "fern" => Some(Plain(SmallPlant(SmallPlantKind.Fern)))
    case "dead_bush" => Some(Plain(SmallPlant(DeadBush)))
    case "brown_mushroom" => Some(Plain(SmallPlant(BrownMushroom)))
    case "red_mushroom" => Some(Plain(SmallPlant(RedMushroom)))
    case "dandelion" => Some(Plain(SmallPlant(Dandelion)))
    case "poppy" => Some(Plain(SmallPlant(Poppy)))
    case "cornflower" => Some(Plain(SmallPlant(Cornflower)))
    case "blue_orchid" => Some(Plain(SmallPlant(BlueOrchid)))
    case "allium" => Some(Plain(SmallPlant(Allium)))
    case "azure_bluet" => Some(Plain(SmallPlant(AzureBluet)))
    case "red_tulip" => Some(Plain(SmallPlant(RedTulip)))
    case "orange_tulip" => Some(Plain(SmallPlant(OrangeTulip)))
    case "white_tulip" => Some(Plain(SmallPlant(WhiteTulip)))
    case "pink_tulip" => Some(Plain(SmallPlant(PinkTulip)))
    case "oxeye_daisy" => Some(Plain(SmallPlant(OxeyeDaisy)))
    case "seagrass" => Some(Plain(SmallPlant(SmallPlantKind.Seagrass)))
    case "tall_grass" => Some(TallPlantEntry(TallPlantKind.Grass))
    case "large_fern" => Some(TallPlantEntry(TallPlantKind.Fern))
    case "sunflower" => Some(TallPlantEntry(Sunflower))
    case "lilac" => Some(TallPlantEntry(Lilac))
    case "rose_bush" => Some(TallPlantEntry(Rose))
    case "peony" => Some(TallPlantEntry(Peony))
    case "snow" => Some(Plain(SnowLayer))
    case "fence" => Some(Plain(Fence(Wood(Oak))))
    case "cobblestone_wall" => Some(Plain(Fence(MossyCobble)))
    case "mossy_cobblestone_wall" => Some(Plain(Fence(MossyCobble)))
    case "oak_stairs" => Some(StairEntry(Wood(Oak)))
    case "spruce_stairs" => Some(StairEntry(Wood(Spruce)))
    case "birch_stairs" => Some(StairEntry(Wood(Birch)))
    case "jungle_stairs" => Some(StairEntry(Wood(Jungle)))
    case "acacia_stairs" => Some(StairEntry(Wood(Acacia)))
    case "dark_oak_stairs" => Some(StairEntry(Wood(DarkOak)))
    case "cobblestone_stairs" => Some(StairEntry(Cobble))
    case "stone_brick_stairs" => Some(StairEntry(StoneBrick))
    case "blackstone_stairs" => Some(StairEntry(Blackstone))
    case "mud_brick_stairs" => Some(StairEntry(MudBrick))
    case "mushroom_stem" => Some(Plain(MushroomStem))
    case "mangrove_roots" => Some(Plain(MangroveRoots))
    case "muddy_mangrove_roots" => Some(Plain(MuddyMangroveRoots))
    case _ => None
  }

  /** The arm's reading of the properties. */
  function ReadEntry(e: Entry, props: Compound): Lookup {
    match e
    case Plain(b) => Found(b)
    case WaterEntry => WaterOf(props)
    case DirtEntry => DirtOf(props)
    case CauldronEntry => CauldronOf(props)
    case BellEntry => BellOf(props)
    case LadderEntry => LadderOf(props)
    case LeavesEntry(species) => LeavesOf(species, props)
    case WallBannerEntry(color) => WallBannerOf(color, props)
    case LogEntry(species, stripped) => LogOf(species, props, stripped)
    case TallPlantEntry(tall) => TallPlantOf(tall, props)
    case SlabEntry(material) => SlabOf(material, props)
    case StairEntry(material) => StairOf(material, props)
    case TrapdoorEntry(species) => TrapdoorOf(species, props)
    case DoorEntry(species) => DoorOf(species, props)
  }

  /** `known_block`: `None` in the source is `Unrecognised` here. */
  function KnownBlock(name: string, props: Compound): Lookup {
    match TableEntry(name)
    case None => Unrecognised
    case Some(e) => ReadEntry(e, props)
  }

  /** Outcome of decoding a block record, before an unknown state is interned. */
  datatype Decoded = Known(block: Block) | Unknown(state: Blockstate) | Failed(reason: string)

  /** The table first; otherwise the stripped name with its string properties. */
  function DecodeState(name: string, props: Compound): Decoded {
    match KnownBlock(name, props)
    case Found(b) => Known(b)
    case Fatal(reason) => Failed(reason)
    case Unrecognised =>
      match StringProps(props)
      case Ok(pairs) => Unknown(Blockstate(name, pairs))
      case Panic(reason) => Failed(reason)
  }

  /** The pure part of `Block::from_nbt`: the name must be present, the `minecraft:` prefix
      is dropped and a missing `Properties` compound reads as empty. */
  function DecodeNbt(nbt: Compound): Decoded {
    match GetStr(nbt, "Name")
    case None => Failed("Invalid block: no name")
    case Some(rawName) =>
      DecodeState(StripPrefix(rawName, "minecraft:"),
                  match GetCompound(nbt, "Properties") case Some(p) => p case None => [])
  }

  /** `UnknownBlocks`: the append-only registry of unknown states, a map from state to
      index together with its inverse, the vector of states. */
  class UnknownBlocks {
    var indices: map<Blockstate, u16>
    var states: seq<Blockstate>

    /** The map and the vector are inverse to each other and every index fits a `u16`. */
    ghost predicate Valid()
      reads this
    {
      && |states| <= 65536
      && (forall i :: 0 <= i < |states| ==> states[i] in indices && indices[states[i]] == i)
      && (forall s :: s in indices ==> indices[s] < |states| && states[indices[s]] == s)
    }

    /** `UnknownBlocks::default()`. */
    constructor ()
      ensures Valid()
      ensures indices == map[] && states == []
    {
      indices := map[];
      states := [];
    }

    /** The interning step of `from_nbt`: a known state keeps its index, a new one gets
        `states.len() as u16` and is appended. */
    method Intern(state: Blockstate) returns (index: u16)
      modifies this
      ensures state in old(indices) ==> index == old(indices)[state] && indices == old(indices) && states == old(states)
      ensures state !in old(indices) ==>
        && index == |old(states)| % 65536
        && indices == old(indices)[state := index]
        && states == old(states) + [state]
      ensures old(Valid()) && (state in old(indices) || |old(states)| < 65536) ==>
        Valid() && index < |states| && states[index] == state
    {
      if state in indices {
        index := indices[state];
      } else {
        index := |states| % 65536;
        indices := indices[state := index];
        states := states + [state];
        if old(Valid()) && |old(states)| < 65536 {
          forall s | s in indices
            ensures indices[s] < |states| && states[indices[s]] == s
          {
            if s != state {
              assert s in old(indices);
            }
          }
        }
      }
    }

    /** `Block::from_nbt`: decode, and intern the state when it is not in the table. */
    method FromNbt(nbt: Compound) returns (r: Result<Block>)
      modifies this
      ensures DecodeNbt(nbt).Known? ==> r == Ok(DecodeNbt(nbt).block) && indices == old(indices) && states == old(states)
      ensures DecodeNbt(nbt).Failed? ==> r.Panic? && indices == old(indices) && states == old(states)
      ensures DecodeNbt(nbt).Unknown? ==>
        var state := DecodeNbt(nbt).state;
        && r.Ok? && r.value.Other?
        && (state in old(indices) ==> r.value.index == old(indices)[state] && states == old(states))
        && (state !in old(indices) ==> r.value.index == |old(states)| % 65536 && states == old(states) + [state])
        && (old(Valid()) && (state in old(indices) || |old(states)| < 65536) ==>
              Valid() && r.value.index < |states| && states[r.value.index] == state)
    {
      match DecodeNbt(nbt)
      case Known(b) =>
        r := Ok(b);
      case Failed(reason) =>
        r := Panic(reason);
      case Unknown(state) =>
        var index := Intern(state);
        r := Ok(Other(index));
    }
  }

  // ---------------------------------------------------------------------------------------
  // Classification and transforms

  /** `Block::solid`. */
  predicate Solid(b: Block) {
    !(|| b.Air? || b.Water? || b.Lava? || b.SmallPlant? || b.TallPlant? || b.GroundPlant?
      || b.Leaves? || b.SnowLayer? || b.Ladder? || b.Trapdoor? || b.Door? || b.WallBanner?
      || b.Repeater? || b.Rail?)
  }

  /** `Block::walkable`. */
  predicate Walkable(b: Block) {
    Solid(b) || b.Ladder?
  }

  /** `Block::soil`. */
  predicate Soil(b: Block) {
    || b.Dirt? || b.Grass? || b.Sand? || b.Gravel? || b.Farmland? || b.Path? || b.Podzol?
    || b.CoarseDirt? || b.SoulSand? || b.PackedMud?
  }

  /** `Block::dirtsoil`. */
  predicate Dirtsoil(b: Block) {
    || b.Dirt? || b.Grass? || b.Gravel? || b.Farmland? || b.Path? || b.Podzol?
    || b.CoarseDirt? || b.SoulSand? || b.PackedMud?
  }

  /** `Block::no_pathing`. */
  predicate NoPathing(b: Block) {
    b.Water? || b.Lava? || b == GroundPlant(Cactus)
  }

  /** `Block::climbable`. */
  predicate Climbable(b: Block) {
    b.Ladder?
  }

  /** `Block::rotated`: a `Normal` log swaps x and y whatever the number of turns; stairs,
      wall banners, repeaters, trapdoors and doors turn their facing. */
  function Rotated(b: Block, turns: int): Block {
    match b
    case Log(species, Normal(axis)) =>
      if axis == Axis.X then Log(species, Normal(Axis.Y))
      else if axis == Axis.Y then Log(species, Normal(Axis.X))
      else b
    case Stair(material, facing, half) => Stair(material, facing.Rotated(turns), half)
    case WallBanner(facing, color) => WallBanner(facing.Rotated(turns), color)
    case Repeater(facing, delay) => Repeater(facing.Rotated(turns), delay)
    case Trapdoor(species, facing, meta) => Trapdoor(species, facing.Rotated(turns), meta)
    case Door(species, facing, meta) => Door(species, facing.Rotated(turns), meta)
    case _ => b
  }

  /** `Block::swap_wood_type`: whatever is made of oak becomes made of `species`. */
  function SwapWoodType(b: Block, species: TreeSpecies): Block {
    match b
    case Full(Wood(Oak)) => Full(Wood(species))
    case Slab(Wood(Oak), half) => Slab(Wood(species), half)
    case Stair(Wood(Oak), facing, half) => Stair(Wood(species), facing, half)
    case Fence(Wood(Oak)) => Fence(Wood(species))
    case Log(Oak, logType) => Log(species, logType)
    case Leaves(Oak, distance) => Leaves(species, distance)
    case Trapdoor(Oak, facing, meta) => Trapdoor(species, facing, meta)
    case Door(Oak, facing, meta) => Door(species, facing, meta)
    case _ => b
  }

  /** `impl BitOr for Block`: the left block when it is solid, otherwise the right one. */
  function BitOr(a: Block, b: Block): Block {
    if Solid(a) then a else b
  }

  /** The wood a block is made of, for the variants `swap_wood_type` looks at. */
  function WoodOf(b: Block): Option<TreeSpecies> {
    match b
    case Full(Wood(s)) => Some(s)
    case Slab(Wood(s), _) => Some(s)
    case Stair(Wood(s), _, _) => Some(s)
    case Fence(Wood(s)) => Some(s)
    case Log(s, _) => Some(s)
    case Leaves(s, _) => Some(s)
    case Trapdoor(s, _, _) => Some(s)
    case Door(s, _, _) => Some(s)
    case _ => None
  }

  /** Replacing the wood of a block, on the variants `WoodOf` reads. */
  function WithWood(b: Block, s: TreeSpecies): Block {
    match b
    case Full(Wood(_)) => Full(Wood(s))
    case Slab(Wood(_), half) => Slab(Wood(s), half)
    case Stair(Wood(_), facing, half) => Stair(Wood(s), facing, half)
    case Fence(Wood(_)) => Fence(Wood(s))
    case Log(_, logType) => Log(s, logType)
    case Leaves(_, distance) => Leaves(s, distance)
    case Trapdoor(_, facing, meta) => Trapdoor(s, facing, meta)
    case Door(_, facing, meta) => Door(s, facing, meta)
    case _ => b
  }

  // ---------------------------------------------------------------------------------------
  // Display of a block state

  function PropText(p: (string, string)): string {
    p.0 + "=" + p.1 + ","
  }

  /** Each property followed by a comma, the last one included. */
  function PropsText(props: seq<(string, string)>): string {
    if props == [] then "" else PropsText(props[..|props| - 1]) + PropText(props[|props| - 1])
  }

  /** What `Display` prints: the name and the bracketed properties, brackets always. */
  function Render(state: Blockstate): string {
    state.name + "[" + PropsText(state.props) + "]"
  }

  /** `impl Display for Blockstate`: the formatter loop. */
  method Display(state: Blockstate) returns (out: string)
    ensures out == Render(state)
  {
    out := state.name + "[";
    var i := 0;
    while i < |state.props|
      invariant 0 <= i <= |state.props|
      invariant out == state.name + "[" + PropsText(state.props[..i])
    {
      assert state.props[..i + 1][..i] == state.props[..i];
      out := out + PropText(state.props[i]);
      i := i + 1;
    }
    assert state.props[..|state.props|] == state.props;
    out := out + "]";
  }

  // ---------------------------------------------------------------------------------------
  // Properties of the block model

  /** Every block's state is defined unless it is an out-of-range cauldron or repeater or
      an index outside the registry; in particular every `Other` the registry handed out
      has one. */
  lemma BlockstateDefined(b: Block, registry: UnknownBlocks)
    requires registry.Valid()
    requires !(b.Cauldron? && b.water > 3) && !(b.Repeater? && !(1 <= b.delay <= 4))
    requires b.Other? ==> exists s :: s in registry.indices && registry.indices[s] == b.index
    ensures ToBlockstate(b, registry.states).Ok?
  {
  }

  /** The relations between the classification predicates: walking is solid ground or a
      ladder, climbing implies walking, dirt-like soil is soil, sand is the one soil that is
      not dirt-like, every soil is solid, and no unpathable block is solid. */
  lemma ClassificationRelations(b: Block)
    ensures Walkable(b) <==> Solid(b) || b.Ladder?
    ensures Climbable(b) ==> Walkable(b) && !Solid(b)
    ensures Dirtsoil(b) ==> Soil(b)
    ensures Soil(b) <==> Dirtsoil(b) || b == Sand
    ensures Soil(Sand) && !Dirtsoil(Sand)
    ensures Soil(b) ==> Solid(b)
    ensures NoPathing(b) ==> !Solid(b)
  {
  }

  /** Rotation keeps the variant and whether the block is solid, and leaves unchanged
      every block it does not orient (everything but logs with a horizontal axis, stairs,
      wall banners, repeaters, trapdoors and doors). */
  lemma RotationPreservesKind(b: Block, turns: int)
    ensures Solid(Rotated(b, turns)) == Solid(b)
    ensures Rotated(b, turns).Log? == b.Log?
    ensures (!(b.Stair? || b.WallBanner? || b.Repeater? || b.Trapdoor? || b.Door?
               || (b.Log? && b.logType.Normal? && b.logType.axis != Axis.Z)))
            ==> Rotated(b, turns) == b
    ensures b.Log? && b.logType == Normal(Axis.X) ==> Rotated(b, turns) == b.(logType := Normal(Axis.Y))
    ensures b.Log? && b.logType == Normal(Axis.Y) ==> Rotated(b, turns) == b.(logType := Normal(Axis.X))
    ensures b.Log? && b.logType != Normal(Axis.X) && b.logType != Normal(Axis.Y) ==> Rotated(b, turns) == b
  {
  }

  /** A log rotated twice is back where it started whatever the turns; any other block
      rotated by `a` then by `c` is rotated by `a + c`. */
  lemma RotatedTwice(b: Block, a: int, c: int)
    ensures b.Log? ==> Rotated(Rotated(b, a), c) == b
    ensures !b.Log? ==> Rotated(Rotated(b, a), c) == Rotated(b, a + c)
  {
    if b.Log? {
      RotatedTwiceLog(b, a, c);
    } else if b.Stair? || b.WallBanner? || b.Repeater? || b.Trapdoor? || b.Door? {
      RotatedTwiceFacing(b, a, c);
    }
  }

  lemma RotatedTwiceLog(b: Block, a: int, c: int)
    requires b.Log?
    ensures Rotated(Rotated(b, a), c) == b
  {
  }

  lemma RotatedTwiceFacing(b: Block, a: int, c: int)
    requires b.Stair? || b.WallBanner? || b.Repeater? || b.Trapdoor? || b.Door?
    ensures Rotated(Rotated(b, a), c) == Rotated(b, a + c)
  {
    RotatedFacing(b, a);
    RotatedFacing(Rotated(b, a), c);
    RotatedFacing(b, a + c);
    Geometry.RotatedTwice(b.facing, a, c);
  }

  /** The blocks with a facing turn it and keep everything else. */
  lemma RotatedFacing(b: Block, turns: int)
    requires b.Stair? || b.WallBanner? || b.Repeater? || b.Trapdoor? || b.Door?
    ensures Rotated(b, turns) == b.(facing := b.facing.Rotated(turns))
  {
  }

  /** `swap_wood_type` changes only what is made of oak, into the given species: swapping
      to oak is the identity and swapping twice is swapping once. */
  lemma SwapWoodTypeSpec(b: Block, species: TreeSpecies)
    ensures SwapWoodType(b, species) == if WoodOf(b) == Some(Oak) then WithWood(b, species) else b
    ensures WoodOf(SwapWoodType(b, species)) == if WoodOf(b) == Some(Oak) then Some(species) else WoodOf(b)
    ensures SwapWoodType(b, Oak) == b
    ensures SwapWoodType(SwapWoodType(b, species), species) == SwapWoodType(b, species)
  {
  }

  /** `|` keeps the first solid operand: it is solid when either side is, associative,
      and air is its left identity. */
  lemma BitOrLaws(a: Block, b: Block, c: Block)
    ensures Solid(BitOr(a, b)) <==> Solid(a) || Solid(b)
    ensures BitOr(BitOr(a, b), c) == BitOr(a, BitOr(b, c))
    ensures BitOr(Air, b) == b
    ensures BitOr(a, a) == a
  {
  }

  /** `tile_entity_nbt` is present exactly for bells and wall banners, and swaps the
      position's last two coordinates. */
  lemma TileEntityShape(b: Block, pos: Pos)
    ensures TileEntityNbt(b, pos).Some? <==> b.Bell? || b.WallBanner?
    ensures TileEntityNbt(b, pos).Some? ==>
      var t := TileEntityNbt(b, pos).value;
      GetInt(t, "x") == Some(pos.x) && GetInt(t, "y") == Some(pos.z) && GetInt(t, "z") == Some(pos.y)
  {
  }

  /** Reading back a state's record hands the decoder the state's own name and its
      properties as a compound. */
  lemma DecodeOfStateNbt(state: Blockstate)
    requires !StartsWith(state.name, "minecraft:")
    ensures DecodeNbt(StateNbt(state)) == DecodeState(state.name, PropsCompound(state.props))
  {
    GetPair("Name", TString(state.name), "Properties", TCompound(PropsCompound(state.props)), "Name");
    GetPair("Name", TString(state.name), "Properties", TCompound(PropsCompound(state.props)), "Properties");
  }

  /** `b` is written without panicking and read back as itself. */
  predicate RoundTrips(b: Block, unknown: seq<Blockstate>) {
    ToNbt(b, unknown).Ok? && DecodeNbt(ToNbt(b, unknown).value) == Known(b)
  }

  /** What the decoder makes of a block's record when the table has an entry for the
      block's name: whatever that entry reads from the written properties. */
  lemma EntryDecode(b: Block, unknown: seq<Blockstate>, state: Blockstate, e: Entry, result: Block)
    requires ToBlockstate(b, unknown) == Ok(state)
    requires !StartsWith(state.name, "minecraft:")
    requires TableEntry(state.name) == Some(e)
    requires ReadEntry(e, PropsCompound(state.props)) == Found(result)
    ensures ToNbt(b, unknown) == Ok(StateNbt(state))
    ensures DecodeNbt(StateNbt(state)) == Known(result)
  {
    DecodeOfStateNbt(state);
  }

  /** What the decoder makes of a block's record when the table has no entry for the
      block's name: the state itself, as an unknown one. */
  lemma UnlistedDecode(b: Block, unknown: seq<Blockstate>, state: Blockstate)
    requires ToBlockstate(b, unknown) == Ok(state)
    requires !StartsWith(state.name, "minecraft:")
    requires TableEntry(state.name) == None
    requires StringProps(PropsCompound(state.props)) == Ok(state.props)
    ensures ToNbt(b, unknown) == Ok(StateNbt(state))
    ensures DecodeNbt(StateNbt(state)) == Unknown(state)
  {
    DecodeOfStateNbt(state);
  }

  /** How each kind of entry reads the properties, one kind at a time. */
  lemma ReadEntryKinds(e: Entry, props: Compound)
    ensures e.Plain? ==> ReadEntry(e, props) == Found(e.block)
    ensures e.CauldronEntry? ==> ReadEntry(e, props) == CauldronOf(props)
    ensures e.LeavesEntry? ==> ReadEntry(e, props) == LeavesOf(e.species, props)
    ensures e.WallBannerEntry? ==> ReadEntry(e, props) == WallBannerOf(e.color, props)
    ensures e.SlabEntry? ==> ReadEntry(e, props) == SlabOf(e.material, props)
    ensures e.WaterEntry? ==> ReadEntry(e, props) == WaterOf(props)
  {
  }

  /** `TerracottaName` is the formatted name. */
  lemma TerracottaNameSpelling(c: Color)
    ensures TerracottaName(c) == ColorStr(c) + "_terracotta"
  {
    if c == White || c == Orange {
      TerracottaNameSpellingWhiteOrange(c);
    } else if c == Magenta || c == LightBlue {
      TerracottaNameSpellingMagentaLightBlue(c);
    } else if c == Yellow || c == Lime {
      TerracottaNameSpellingYellowLime(c);
    } else if c == Pink || c == Gray {
      TerracottaNameSpellingPinkGray(c);
    } else if c == LightGray || c == Cyan {
      TerracottaNameSpellingLightGrayCyan(c);
    } else if c == Purple || c == Blue {
      TerracottaNameSpellingPurpleBlue(c);
    } else if c == Brown || c == Green {
      TerracottaNameSpellingBrownGreen(c);
    } else {
      TerracottaNameSpellingRedBlack(c);
    }
  }

  // The lemmas from here to the next doc comment only split the case analysis of
  // `TerracottaNameSpelling` into small groups of values; they state nothing more.

  lemma TerracottaNameSpellingWhiteOrange(c: Color)
    requires c == White || c == Orange
    ensures TerracottaName(c) == ColorStr(c) + "_terracotta"
  {
  }

  lemma TerracottaNameSpellingMagentaLightBlue(c: Color)
    requires c == Magenta || c == LightBlue
    ensures TerracottaName(c) == ColorStr(c) + "_terracotta"
  {
  }

  lemma TerracottaNameSpellingYellowLime(c: Color)
    requires c == Yellow || c == Lime
    ensures TerracottaName(c) == ColorStr(c) + "_terracotta"
  {
  }

  lemma TerracottaNameSpellingPinkGray(c: Color)
    requires c == Pink || c == Gray
    ensures TerracottaName(c) == ColorStr(c) + "_terracotta"
  {
  }

  lemma TerracottaNameSpellingLightGrayCyan(c: Color)
    requires c == LightGray || c == Cyan
    ensures TerracottaName(c) == ColorStr(c) + "_terracotta"
  {
  }

  lemma TerracottaNameSpellingPurpleBlue(c: Color)
    requires c == Purple || c == Blue
    ensures TerracottaName(c) == ColorStr(c) + "_terracotta"
  {
  }

  lemma TerracottaNameSpellingBrownGreen(c: Color)
    requires c == Brown || c == Green
    ensures TerracottaName(c) == ColorStr(c) + "_terracotta"
  {
  }

  lemma TerracottaNameSpellingRedBlack(c: Color)
    requires c == Red || c == Black
    ensures TerracottaName(c) == ColorStr(c) + "_terracotta"
  {
  }

  /** `WallBannerName` is the formatted name. */
  lemma WallBannerNameSpelling(c: Color)
    ensures WallBannerName(c) == ColorStr(c) + "_wall_banner"
  {
    if c == White || c == Orange {
      WallBannerNameSpellingWhiteOrange(c);
    } else if c == Magenta || c == LightBlue {
      WallBannerNameSpellingMagentaLightBlue(c);
    } else if c == Yellow || c == Lime {
      WallBannerNameSpellingYellowLime(c);
    } else if c == Pink || c == Gray {
      WallBannerNameSpellingPinkGray(c);
    } else if c == LightGray || c == Cyan {
      WallBannerNameSpellingLightGrayCyan(c);
    } else if c == Purple || c == Blue {
      WallBannerNameSpellingPurpleBlue(c);
    } else if c == Brown || c == Green {
      WallBannerNameSpellingBrownGreen(c);
    } else {
      WallBannerNameSpellingRedBlack(c);
    }
  }

  // The lemmas from here to the next doc comment only split the case analysis of
  // `WallBannerNameSpelling` into small groups of values; they state nothing more.

  lemma WallBannerNameSpellingWhiteOrange(c: Color)
    requires c == White || c == Orange
    ensures WallBannerName(c) == ColorStr(c) + "_wall_banner"
  {
  }

  lemma WallBannerNameSpellingMagentaLightBlue(c: Color)
    requires c == Magenta || c == LightBlue
    ensures WallBannerName(c) == ColorStr(c) + "_wall_banner"
  {
  }

  lemma WallBannerNameSpellingYellowLime(c: Color)
    requires c == Yellow || c == Lime
    ensures WallBannerName(c) == ColorStr(c) + "_wall_banner"
  {
  }

  lemma WallBannerNameSpellingPinkGray(c: Color)
    requires c == Pink || c == Gray
    ensures WallBannerName(c) == ColorStr(c) + "_wall_banner"
  {
  }

  lemma WallBannerNameSpellingLightGrayCyan(c: Color)
    requires c == LightGray || c == Cyan
    ensures WallBannerName(c) == ColorStr(c) + "_wall_banner"
  {
  }

  lemma WallBannerNameSpellingPurpleBlue(c: Color)
    requires c == Purple || c == Blue
    ensures WallBannerName(c) == ColorStr(c) + "_wall_banner"
  {
  }

  lemma WallBannerNameSpellingBrownGreen(c: Color)
    requires c == Brown || c == Green
    ensures WallBannerName(c) == ColorStr(c) + "_wall_banner"
  {
  }

  lemma WallBannerNameSpellingRedBlack(c: Color)
    requires c == Red || c == Black
    ensures WallBannerName(c) == ColorStr(c) + "_wall_banner"
  {
  }

  /** `LeavesName` is the formatted name. */
  lemma LeavesNameSpelling(s: TreeSpecies)
    ensures LeavesName(s) == SpeciesStr(s) + "_leaves"
  {
    if s == Oak || s == Spruce || s == Birch || s == Jungle {
      LeavesNameSpellingA(s);
    } else if s == Acacia || s == DarkOak || s == Warped || s == Crimson {
      LeavesNameSpellingB(s);
    } else {
      LeavesNameSpellingC(s);
    }
  }

  // The lemmas from here to the next doc comment only split the case analysis of
  // `LeavesNameSpelling` into small groups of values; they state nothing more.

  lemma LeavesNameSpellingA(s: TreeSpecies)
    requires s == Oak || s == Spruce || s == Birch || s == Jungle
    ensures LeavesName(s) == SpeciesStr(s) + "_leaves"
  {
  }

  lemma LeavesNameSpellingB(s: TreeSpecies)
    requires s == Acacia || s == DarkOak || s == Warped || s == Crimson
    ensures LeavesName(s) == SpeciesStr(s) + "_leaves"
  {
  }

  lemma LeavesNameSpellingC(s: TreeSpecies)
    requires s == Mangrove || s == Cherry || s == Azalea || s == FloweringAzalea
    ensures LeavesName(s) == SpeciesStr(s) + "_leaves"
  {
  }

  /** Every coloured terracotta's name is in the table, under its own colour. */
  lemma TerracottaEntry(c: Color)
    ensures TableEntry(TerracottaName(c)) == Some(Plain(Terracotta(Some(c))))
    ensures !StartsWith(TerracottaName(c), "minecraft:")
  {
    if c == White || c == Orange || c == Magenta || c == LightBlue {
      TerracottaEntryWarm(c);
    } else if c == Yellow || c == Lime || c == Pink || c == Gray {
      TerracottaEntryBright(c);
    } else if c == LightGray || c == Cyan || c == Purple || c == Blue {
      TerracottaEntryCool(c);
    } else {
      TerracottaEntryDark(c);
    }
  }

  lemma TerracottaEntryWarm(c: Color)
    requires c == White || c == Orange || c == Magenta || c == LightBlue
    ensures TableEntry(TerracottaName(c)) == Some(Plain(Terracotta(Some(c))))
    ensures !StartsWith(TerracottaName(c), "minecraft:")
  {
    NotStartsWith(TerracottaName(c), "minecraft:", 9);
  }

  lemma TerracottaEntryBright(c: Color)
    requires c == Yellow || c == Lime || c == Pink || c == Gray
    ensures TableEntry(TerracottaName(c)) == Some(Plain(Terracotta(Some(c))))
    ensures !StartsWith(TerracottaName(c), "minecraft:")
  {
    NotStartsWith(TerracottaName(c), "minecraft:", 9);
  }

  lemma TerracottaEntryCool(c: Color)
    requires c == LightGray || c == Cyan || c == Purple || c == Blue
    ensures TableEntry(TerracottaName(c)) == Some(Plain(Terracotta(Some(c))))
    ensures !StartsWith(TerracottaName(c), "minecraft:")
  {
    NotStartsWith(TerracottaName(c), "minecraft:", 9);
  }

  lemma TerracottaEntryDark(c: Color)
    requires c == Brown || c == Green || c == Red || c == Black
    ensures TableEntry(TerracottaName(c)) == Some(Plain(Terracotta(Some(c))))
    ensures !StartsWith(TerracottaName(c), "minecraft:")
  {
    NotStartsWith(TerracottaName(c), "minecraft:", 9);
  }

  /** Every terracotta, plain or of any colour, survives encoding and decoding. */
  lemma TerracottaRoundTrip(tint: Option<Color>, unknown: seq<Blockstate>)
    ensures RoundTrips(Terracotta(tint), unknown)
  {
    var name := match tint case None => "terracotta" case Some(c) => TerracottaName(c);
    match tint
    case None =>
      NotStartsWith("terracotta", "minecraft:", 0);
      assert TableEntry("terracotta") == Some(Plain(Terracotta(None)));
    case Some(c) =>
      TerracottaEntry(c);
    assert ToBlockstate(Terracotta(tint), unknown) == Ok(Named(name));
    ReadEntryKinds(Plain(Terracotta(tint)), []);
    EntryDecode(Terracotta(tint), unknown, Named(name), Plain(Terracotta(tint)), Terracotta(tint));
  }

  /** The table reads a cauldron's `level` back as its fill level, and a missing level
      as an empty cauldron. */
  lemma CauldronLevels(water: u8)
    requires water <= 3
    ensures CauldronOf([("level", TString([DigitChar(water)]))]) == Found(Cauldron(water))
    ensures CauldronOf([]) == Found(Cauldron(0))
  {
    assert [DigitChar(water)] == NatToString(water);
    ParseU8OfToString(water);
    ParseU8OfToString(0);
    assert NatToString(0) == "0";
    GetPair("level", TString([DigitChar(water)]), "", TString(""), "level");
  }

  /** A cauldron with fill level 0..=3 survives encoding and decoding, and a cauldron
      record without a level reads as an empty one. */
  lemma CauldronRoundTrip(water: u8, unknown: seq<Blockstate>)
    requires water <= 3
    ensures RoundTrips(Cauldron(water), unknown)
    ensures DecodeNbt([("Name", TString("cauldron"))]) == Known(Cauldron(0))
  {
    var state := Blockstate("cauldron", [("level", [DigitChar(water)])]);
    CauldronState(water, unknown);
    CauldronListed();
    PropsCompoundSingle("level", [DigitChar(water)]);
    CauldronLevels(water);
    ReadEntryKinds(CauldronEntry, PropsCompound(state.props));
    EntryDecode(Cauldron(water), unknown, state, CauldronEntry, Cauldron(water));
    CauldronWithoutLevel();
  }

  lemma CauldronState(water: u8, unknown: seq<Blockstate>)
    requires water <= 3
    ensures ToBlockstate(Cauldron(water), unknown) == Ok(Blockstate("cauldron", [("level", [DigitChar(water)])]))
  {
  }

  lemma CauldronListed()
    ensures TableEntry("cauldron") == Some(CauldronEntry)
    ensures !StartsWith("cauldron", "minecraft:")
  {
    NotStartsWith("cauldron", "minecraft:", 0);
  }

  lemma CauldronWithoutLevel()
    ensures DecodeNbt([("Name", TString("cauldron"))]) == Known(Cauldron(0))
  {
    CauldronListed();
    assert StateNbt(Named("cauldron")) == [("Name", TString("cauldron"))];
    CauldronLevels(0);
    ReadEntryKinds(CauldronEntry, []);
    DecodeOfStateNbt(Named("cauldron"));
  }

  /** A slab's `type` decodes to the top or bottom half, except `double`, which is the
      full block of the slab's material. */
  lemma SlabDecoding(material: Material, t: string)
    ensures SlabOf(material, [("type", TString(t))])
         == Found(if t == "double" then Full(material) else Slab(material, if t == "top" then Top else Bottom))
  {
    GetPair("type", TString(t), "", TString(""), "type");
  }

  /** A double oak slab record decodes to oak planks. */
  lemma DoubleSlabDecodesFull()
    ensures DecodeNbt(StateNbt(Blockstate("oak_slab", [("type", "double")]))) == Known(Full(Wood(Oak)))
  {
    var state := Blockstate("oak_slab", [("type", "double")]);
    NotStartsWith("oak_slab", "minecraft:", 0);
    DecodeOfStateNbt(state);
    OakSlabEntry();
    PropsCompoundSingle("type", "double");
    SlabDecoding(Wood(Oak), "double");
    ReadEntryKinds(SlabEntry(Wood(Oak)), PropsCompound(state.props));
  }

  lemma OakSlabEntry()
    ensures TableEntry("oak_slab") == Some(SlabEntry(Wood(Oak)))
  {
  }

  /** An oak slab of either half survives encoding and decoding. */
  lemma OakSlabRoundTrip(half: Half, unknown: seq<Blockstate>)
    ensures RoundTrips(Slab(Wood(Oak), half), unknown)
  {
    var state := Blockstate("oak_slab", [("type", HalfStr(half))]);
    assert MaterialStr(Wood(Oak)) + "_slab" == "oak_slab";
    assert ToBlockstate(Slab(Wood(Oak), half), unknown) == Ok(state);
    NotStartsWith("oak_slab", "minecraft:", 0);
    OakSlabEntry();
    PropsCompoundSingle("type", HalfStr(half));
    SlabDecoding(Wood(Oak), HalfStr(half));
    ReadEntryKinds(SlabEntry(Wood(Oak)), PropsCompound(state.props));
    EntryDecode(Slab(Wood(Oak), half), unknown, state, SlabEntry(Wood(Oak)), Slab(Wood(Oak), half));
  }

  /** The species whose leaves the table spells correctly. */
  predicate LeavesInTable(s: TreeSpecies) {
    s != Acacia && s != Warped && s != Crimson && s != Mangrove && s != Cherry
  }

  /** The leaves of the species the table spells correctly are in it. */
  lemma LeavesNamed(s: TreeSpecies)
    requires LeavesInTable(s)
    ensures TableEntry(LeavesName(s)) == Some(LeavesEntry(s))
    ensures !StartsWith(LeavesName(s), "minecraft:")
  {
    if s == Oak || s == Spruce || s == Birch {
      LeavesNamedBroadleaf(s);
    } else if s == Jungle || s == DarkOak {
      LeavesNamedTropical(s);
    } else {
      LeavesNamedAzalea(s);
    }
  }

  lemma LeavesNamedBroadleaf(s: TreeSpecies)
    requires s == Oak || s == Spruce || s == Birch
    ensures TableEntry(LeavesName(s)) == Some(LeavesEntry(s))
    ensures !StartsWith(LeavesName(s), "minecraft:")
  {
    NotStartsWith(LeavesName(s), "minecraft:", 0);
  }

  lemma LeavesNamedTropical(s: TreeSpecies)
    requires s == Jungle || s == DarkOak
    ensures TableEntry(LeavesName(s)) == Some(LeavesEntry(s))
    ensures !StartsWith(LeavesName(s), "minecraft:")
  {
    NotStartsWith(LeavesName(s), "minecraft:", 0);
  }

  lemma LeavesNamedAzalea(s: TreeSpecies)
    requires s == Azalea || s == FloweringAzalea
    ensures TableEntry(LeavesName(s)) == Some(LeavesEntry(s))
    ensures !StartsWith(LeavesName(s), "minecraft:")
  {
    NotStartsWith(LeavesName(s), "minecraft:", 0);
  }

  /** The leaf properties written by the encoder read back as the same distance. */
  lemma LeavesPropsDecode(s: TreeSpecies, distance: Option<i8>)
    ensures LeavesOf(s, PropsCompound(LeavesProps(distance))) == Found(Leaves(s, distance))
  {
    match distance
    case None =>
      PropsCompoundSingle("persistent", "true");
      GetPair("persistent", TString("true"), "", TString(""), "persistent");
    case Some(d) =>
      LeavesDistanceDecode(s, d);
  }

  lemma LeavesDistanceDecode(s: TreeSpecies, d: i8)
    ensures LeavesOf(s, PropsCompound(LeavesProps(Some(d)))) == Found(Leaves(s, Some(d)))
  {
    var props := [("persistent", "false"), ("distance", IntToString(d))];
    assert props[..1] == [("persistent", "false")];
    PropsCompoundSingle("persistent", "false");
    var c := PropsCompound(props);
    assert c == [("persistent", TString("false")), ("distance", TString(IntToString(d)))];
    GetPair("persistent", TString("false"), "distance", TString(IntToString(d)), "persistent");
    GetPair("persistent", TString("false"), "distance", TString(IntToString(d)), "distance");
    ParseI8OfToString(d);
    assert Required(c, "persistent") == Ok("false");
    assert Required(c, "distance") == Ok(IntToString(d));
  }

  lemma LeavesState(s: TreeSpecies, distance: Option<i8>, unknown: seq<Blockstate>)
    ensures ToBlockstate(Leaves(s, distance), unknown) == Ok(Blockstate(LeavesName(s), LeavesProps(distance)))
  {
  }

  /** Leaves of every species the table spells correctly survive encoding and decoding,
      persistent or with their distance. */
  lemma LeavesRoundTrip(s: TreeSpecies, distance: Option<i8>, unknown: seq<Blockstate>)
    requires LeavesInTable(s)
    ensures RoundTrips(Leaves(s, distance), unknown)
  {
    var state := Blockstate(LeavesName(s), LeavesProps(distance));
    LeavesState(s, distance, unknown);
    LeavesNamed(s);
    LeavesPropsDecode(s, distance);
    ReadEntryKinds(LeavesEntry(s), PropsCompound(state.props));
    EntryDecode(Leaves(s, distance), unknown, state, LeavesEntry(s), Leaves(s, distance));
  }

  /** Two names the encoder writes that the table misspells, one lemma each. */
  lemma AcaciaLeavesUnlisted()
    ensures TableEntry("acacia_leaves") == None
  {
  }

  lemma PackedMudUnlisted()
    ensures TableEntry("packed_mud") == None
  {
  }

  lemma PackedPudListed()
    ensures TableEntry("packed_pud") == Some(Plain(PackedMud))
  {
  }

  /** The table has no `acacia_leaves` entry (it spells it `acacie`), so persistent acacia
      leaves are read back as an unknown state. */
  lemma AcaciaLeavesDecodeAsUnknown(unknown: seq<Blockstate>)
    ensures ToNbt(Leaves(Acacia, None), unknown) == Ok(StateNbt(Blockstate("acacia_leaves", [("persistent", "true")])))
    ensures DecodeNbt(StateNbt(Blockstate("acacia_leaves", [("persistent", "true")])))
         == Unknown(Blockstate("acacia_leaves", [("persistent", "true")]))
  {
    var state := Blockstate("acacia_leaves", [("persistent", "true")]);
    LeavesState(Acacia, None, unknown);
    NotStartsWith("acacia_leaves", "minecraft:", 0);
    AcaciaLeavesUnlisted();
    PropsCompoundSingle("persistent", "true");
    var props := [("persistent", TString("true"))];
    assert props[1..] == [];
    assert [("persistent", "true")] + [] == [("persistent", "true")];
    UnlistedDecode(Leaves(Acacia, None), unknown, state);
  }

  /** The table spells packed mud `packed_pud`, so the encoder's `packed_mud` is read back
      as an unknown state. */
  lemma PackedMudDecodesAsUnknown(unknown: seq<Blockstate>)
    ensures ToNbt(PackedMud, unknown) == Ok(StateNbt(Named("packed_mud")))
    ensures DecodeNbt(StateNbt(Named("packed_mud"))) == Unknown(Named("packed_mud"))
    ensures TableEntry("packed_pud") == Some(Plain(PackedMud))
  {
    NotStartsWith("packed_mud", "minecraft:", 0);
    PackedMudUnlisted();
    PackedPudListed();
    UnlistedDecode(PackedMud, unknown, Named("packed_mud"));
  }

  /** The table entries for water and packed mud's misspelling, and what the water entry
      makes of the level property. */
  lemma WaterEntryReads()
    ensures TableEntry("water") == Some(WaterEntry)
    ensures ReadEntry(WaterEntry, []) == Found(Air)
    ensures WaterOf([("level", TString("0"))]) == Found(Water)
  {
    GetPair("level", TString("0"), "", TString(""), "level");
  }

  /** The encoder writes water without a `level`, which the table reads as air; only a
      still source (`level` 0) reads as water. */
  lemma WaterDecodesAsAir(unknown: seq<Blockstate>)
    ensures ToNbt(Water, unknown) == Ok(StateNbt(Named("water")))
    ensures DecodeNbt(StateNbt(Named("water"))) == Known(Air)
    ensures WaterOf([("level", TString("0"))]) == Found(Water)
    ensures TableEntry("water") == Some(WaterEntry)
  {
    NotStartsWith("water", "minecraft:", 0);
    WaterEntryReads();
    EntryDecode(Water, unknown, Named("water"), WaterEntry, Air);
  }

  /** Every wall banner colour in the table has an entry reading it as a red banner. */
  lemma WallBannerNamed(c: Color)
    requires c == Red || c == White || c == Blue || c == Green || c == Yellow
    ensures TableEntry(WallBannerName(c)) == Some(WallBannerEntry(Red))
    ensures !StartsWith(WallBannerName(c), "minecraft:")
  {
    if c == Red || c == White {
      WallBannerNamedFirst(c);
    } else if c == Blue {
      WallBannerNamedBlue();
    } else {
      WallBannerNamedLast(c);
    }
  }

  lemma WallBannerNamedBlue()
    ensures TableEntry(WallBannerName(Blue)) == Some(WallBannerEntry(Red))
    ensures !StartsWith(WallBannerName(Blue), "minecraft:")
  {
    NotStartsWith(WallBannerName(Blue), "minecraft:", 0);
  }

  lemma WallBannerNamedFirst(c: Color)
    requires c == Red || c == White
    ensures TableEntry(WallBannerName(c)) == Some(WallBannerEntry(Red))
    ensures !StartsWith(WallBannerName(c), "minecraft:")
  {
    NotStartsWith(WallBannerName(c), "minecraft:", 0);
  }

  lemma WallBannerNamedLast(c: Color)
    requires c == Green || c == Yellow
    ensures TableEntry(WallBannerName(c)) == Some(WallBannerEntry(Red))
    ensures !StartsWith(WallBannerName(c), "minecraft:")
  {
    NotStartsWith(WallBannerName(c), "minecraft:", 0);
  }

  /** Every wall banner colour in the table decodes as a red banner with the same facing;
      only red banners survive encoding and decoding. */
  lemma WallBannersDecodeRed(facing: HDir, c: Color, unknown: seq<Blockstate>)
    requires c == Red || c == White || c == Blue || c == Green || c == Yellow
    ensures ToNbt(WallBanner(facing, c), unknown).Ok?
    ensures DecodeNbt(ToNbt(WallBanner(facing, c), unknown).value) == Known(WallBanner(facing, Red))
  {
    var state := Blockstate(WallBannerName(c), [("facing", facing.ToStr())]);
    assert ToBlockstate(WallBanner(facing, c), unknown) == Ok(state);
    WallBannerNamed(c);
    PropsCompoundSingle("facing", facing.ToStr());
    GetPair("facing", TString(facing.ToStr()), "", TString(""), "facing");
    HDirStrRoundTrip(facing);
    assert WallBannerOf(Red, PropsCompound(state.props)) == Found(WallBanner(facing, Red));
    ReadEntryKinds(WallBannerEntry(Red), PropsCompound(state.props));
    EntryDecode(WallBanner(facing, c), unknown, state, WallBannerEntry(Red), WallBanner(facing, Red));
  }

  /** A registered unknown state is read back as itself, provided its name is not in the
      table, carries no `minecraft:` prefix and its property names are distinct; interning
      it then returns the index it already has (see `UnknownBlocks.Intern`). */
  lemma OtherRoundTrip(index: u16, registry: UnknownBlocks)
    requires registry.Valid()
    requires index < |registry.states|
    requires TableEntry(registry.states[index].name) == None
    requires !StartsWith(registry.states[index].name, "minecraft:")
    requires forall i, j :: 0 <= i < j < |registry.states[index].props| ==>
      registry.states[index].props[i].0 != registry.states[index].props[j].0
    ensures ToNbt(Other(index), registry.states) == Ok(StateNbt(registry.states[index]))
    ensures DecodeNbt(StateNbt(registry.states[index])) == Unknown(registry.states[index])
    ensures registry.states[index] in registry.indices && registry.indices[registry.states[index]] == index
  {
    var state := registry.states[index];
    PropsCompoundDistinct(state.props);
    var pairs := StringProps(PropsCompound(state.props));
    assert pairs.Ok?;
    assert pairs.value == state.props;
    UnlistedDecode(Other(index), registry.states, state);
  }

  /** When no name or value contains a comma, the rendering holds exactly one comma per
      property, the last one included, and always ends in `]`. */
  lemma RenderCommas(state: Blockstate)
    requires Count(state.name, ',') == 0
    requires forall i :: 0 <= i < |state.props| ==>
      Count(state.props[i].0, ',') == 0 && Count(state.props[i].1, ',') == 0
    ensures Count(Render(state), ',') == |state.props|
    ensures Render(state)[|Render(state)| - 1] == ']'
  {
    PropsTextCommas(state.props);
    assert Count("[", ',') == 0 by {
      assert "["[..0] == [];
    }
    assert Count("]", ',') == 0 by {
      assert "]"[..0] == [];
    }
    CountAppend(state.name, "[", ',');
    CountAppend(state.name + "[", PropsText(state.props), ',');
    CountAppend(state.name + "[" + PropsText(state.props), "]", ',');
  }

  lemma {:induction false} PropsTextCommas(props: seq<(string, string)>)
    requires forall i :: 0 <= i < |props| ==> Count(props[i].0, ',') == 0 && Count(props[i].1, ',') == 0
    ensures Count(PropsText(props), ',') == |props|
    decreases |props|
  {
    if props != [] {
      var init, last := props[..|props| - 1], props[|props| - 1];
      assert forall i :: 0 <= i < |init| ==> init[i] == props[i];
      PropsTextCommas(init);
      PropTextCommas(last);
      CountAppend(PropsText(init), PropText(last), ',');
    }
  }

  /** The text of one property without commas of its own holds exactly its trailing comma. */
  lemma PropTextCommas(p: (string, string))
    requires Count(p.0, ',') == 0 && Count(p.1, ',') == 0
    ensures Count(PropText(p), ',') == 1
  {
    assert Count("=", ',') == 0 by {
      assert "="[..0] == [];
    }
    assert Count(",", ',') == 1 by {
      assert ","[..0] == [];
    }
    CountAppend(p.0, "=", ',');
    CountAppend(p.0 + "=", p.1, ',');
    CountAppend(p.0 + "=" + p.1, ",", ',');
  }
}
