# mc-gen core in Dafny

This project models the storage layer and the deterministic world-editing routines of
mc-gen, a Minecraft settlement generator:

- the chunked world store, with its palette codec for sections. It covers the index width
  rule, word packing on save and unpacking on load, the index arithmetic, lazily created
  sections, and the height and water scan;
- the two block models, older (`src/world/block.rs`) and newer (`src/level/block.rs`). Each
  has its block-state encoder, its NBT decoder with the known-name table and the interning
  registry for unknown states, and its classification and rotation rules;
- the build recorder, a copy-on-first-write overlay over a read-only world;
- the prefab loader's position reading, marker parsing and block ordering, and building a
  prefab into a level, clipped or not;
- the foliage remover. It clears ground plants, grows roots, cuts the trunk, searches for
  the trunk's logs, relaxes leaf distances and removes leaves that would decay.

Values are datatypes and functions. Where the source updates state in place, the model uses
classes or arrays with `modifies` clauses. These are: the world's section table, the
registry of unknown states, the recorder's tables, the target world of `apply_to`, the prefab
level, the foliage world, and the relaxation's distance vector. Each loop is a method proved
against a specification function. The properties the source relies on are lemmas about those
functions. Examples: section encoding round-trips, a chunk survives save and load, the build
order is a permutation, and the leaf relaxation computes path distances.

Files, one module each:

| file | module | models |
|---|---|---|
| common.dfy | Common | Option and Result, integer widths, decimal text, prefixes |
| geometry.dfy | Geometry | assumed positions, columns, directions and cuboids |
| nbt.dfy | Nbt | compound tags as association lists |
| block_kinds.dfy | BlockKinds | small enums shared by both block models |
| world_block.dfy | WorldBlock | src/world/block.rs |
| level_block.dfy | LevelBlock | src/level/block.rs |
| palette.dfy | Palette | the section codec of src/world/mod.rs |
| world.dfy | World | the rest of src/world/mod.rs |
| build_recorder.dfy | BuildRecorder | src/build_recorder.rs |
| structures.dfy | Structures | src/structures/mod.rs |
| remove_foliage.dfy | RemoveFoliage | src/remove_foliage.rs |

A panic in the source is a `Panic` result in the model. An operation that may panic part-way
through states what it guarantees on every outcome.

## Model

| member | source | states |
|---|---|---|
| BlockKinds.AttachmentFromStr | src/world/block.rs:636-643 | the four attachment names read back as their attachment; any other name reads as a double-wall bell |
| BlockKinds.AttachmentRoundTrip | src/world/block.rs:447-460 | a bell's attachment survives being written and read back |
| WorldBlock.ToBlockstate | src/world/block.rs:300-483 | encoding fails exactly on a cauldron fill level above 3 and a repeater delay outside 1..=4; an unknown state is handed back unchanged |
| WorldBlock.OutsideTableUnrecognised | src/world/block.rs:558-655 | a name outside the known-name table is not recognised by it |
| WorldBlock.BlockstateDefinedExceptCounters | src/world/block.rs:434-478 | every block other than an out-of-range cauldron or repeater has a block state and an NBT record |
| WorldBlock.RotationPreservesKind | src/world/block.rs:697-714 | rotation keeps whether a block is solid, whether it is a log, and a log's species; a log's x axis becomes z and z becomes x, a y axis and full bark stay; every block other than a log, stair, wall banner or repeater is unchanged |
| WorldBlock.RotatedFacing | src/world/block.rs:705-713 | stairs, wall banners and repeaters turn their facing by `turns` and keep everything else |
| WorldBlock.RotatedTwice | src/world/block.rs:705-714 | a log rotated twice is back to itself whatever the turns (x and z swap back, y stays); any other block rotated by `a` then `c` is rotated by `a + c` |
| WorldBlock.TileEntityShape | src/world/block.rs:485-512 | a tile entity record exists exactly for bells, wall banners and command blocks; it carries the position, and a command block's carries its command |
| WorldBlock.FromNbtOfToNbt | src/world/block.rs:681-695 | the decoder reads the encoded record as the state's own name with its properties as a compound |
| WorldBlock.LogAxisDecoding | src/world/block.rs:538-549 | `axis` x, y, z decode to a `Normal` log on that axis, `none` to full bark, anything else panics |
| WorldBlock.UnknownNameDecodesToOther | src/world/block.rs:657-678 | a name outside the table decodes to `Other` with exactly the stripped name and the string properties; a non-string property panics |
| WorldBlock.OtherRoundTrip | src/world/block.rs:657-678 | an unknown state whose name is outside the table and unprefixed, with distinct property names, is decoded back as itself |
| WorldBlock.CauldronStateDecodes | src/world/block.rs:633-635 | a cauldron state with `level` 0..=3 decodes to that fill level |
| WorldBlock.CauldronRoundTrip | src/world/block.rs:434-446 | a cauldron with fill level 0..=3 survives encoding and decoding |
| WorldBlock.LogRoundTrip | src/world/block.rs:538-549 | a `Normal` log of each overworld species survives encoding and decoding |
| WorldBlock.AcaciaLeavesStateUnknown | src/world/block.rs:590 | the state `acacia_leaves` is not in the table (it is spelt `acacie_leaves`) and decodes to `Other` |
| WorldBlock.AcaciaLeavesDecodeAsOther | src/world/block.rs:590 | acacia leaves do not survive encoding and decoding: they come back as an unknown state |
| WorldBlock.Display | src/world/block.rs:281-296 | the formatter loop produces the reference rendering `Render` |
| WorldBlock.JoinPropsCommas | src/world/block.rs:281-296 | the properties are joined with one comma fewer than there are properties: no trailing comma |
| WorldBlock.RenderShape | src/world/block.rs:281-296 | a state without properties prints as its bare name; otherwise the name is followed by a bracketed list with one comma fewer than there are properties |
| LevelBlock.ToBlockstate | src/level/block.rs:362-645 | encoding fails exactly on a cauldron level above 3, a repeater delay outside 1..=4 and an unknown index the registry does not hold |
| LevelBlock.UnknownBlocks.constructor | src/level/block.rs:83-88 | the registry starts empty |
| LevelBlock.UnknownBlocks.Intern | src/level/block.rs:927-941 | a known state returns its index and leaves the registry unchanged; a new state gets `states.len()` truncated to 16 bits and is appended; below 65536 states the map stays the inverse of the list |
| LevelBlock.UnknownBlocks.FromNbt | src/level/block.rs:671-942 | a name in the table decodes through its entry without touching the registry, a record that cannot be read panics without touching it, and any other name decodes to `Other` of the interned state |
| LevelBlock.Display | src/level/block.rs:339-347 | the formatter loop produces the reference rendering `Render` |
| LevelBlock.BlockstateDefined | src/level/block.rs:535-618 | every block has a state unless it is an out-of-range cauldron or repeater or an index outside the registry; every index the registry handed out has one |
| LevelBlock.ClassificationRelations | src/level/block.rs:960-1012 | walkable is exactly solid or a ladder; climbable implies walkable and not solid; soil is exactly dirt-soil or sand, and is solid; no unpathable block is solid |
| LevelBlock.RotationPreservesKind | src/level/block.rs:1014-1025 | rotation keeps the variant and solidity; a normal log's axis swaps x to y and y to x whatever the turns, and any other log is unchanged; every block without an orientation is unchanged |
| LevelBlock.RotatedTwice | src/level/block.rs:1014-1025 | a log rotated twice is itself whatever the turns (its axis swap ignores them); any other block rotated by `a` then `c` is rotated by `a + c` |
| LevelBlock.RotatedFacing | src/level/block.rs:1014-1025 | blocks with a facing turn it by `turns` and keep everything else |
| LevelBlock.SwapWoodTypeSpec | src/level/block.rs:1027-1039 | only oak-made blocks change, into the given species; swapping to oak is the identity and swapping twice equals swapping once |
| LevelBlock.BitOrLaws | src/level/block.rs:1042-1051 | the bit-or of two blocks keeps the first solid one: it is solid when either side is, associative, idempotent, and air is its left identity |
| LevelBlock.TileEntityShape | src/level/block.rs:647-667 | a tile entity record exists exactly for bells and wall banners, and stores `y := pos.z`, `z := pos.y` |
| LevelBlock.DecodeOfStateNbt | src/level/block.rs:944-958 | the decoder reads the encoded record as the state's own name with its properties as a compound |
| LevelBlock.EntryDecode | src/level/block.rs:904-906 | a record whose name has a table entry decodes to what that entry reads from the written properties |
| LevelBlock.UnlistedDecode | src/level/block.rs:908-926 | a record whose name has no table entry decodes to its own state, as an unknown one |
| LevelBlock.ReadEntryKinds | src/level/block.rs:677-756 | a plain entry ignores the properties, and cauldron, leaves, wall banner, slab and water entries read them with their own helper |
| LevelBlock.TerracottaNameSpelling | src/level/block.rs:490 | the name of a coloured terracotta is the colour's name followed by `_terracotta` |
| LevelBlock.WallBannerNameSpelling | src/level/block.rs:506 | the name of a wall banner is the colour's name followed by `_wall_banner` |
| LevelBlock.LeavesNameSpelling | src/level/block.rs:419 | the name of leaves is the species' name followed by `_leaves` |
| LevelBlock.TerracottaEntry | src/level/block.rs:851-870 | every coloured terracotta's name is in the table, under its own colour |
| LevelBlock.TerracottaRoundTrip | src/level/block.rs:851-870 | every terracotta, plain or coloured, survives encoding and decoding |
| LevelBlock.CauldronLevels | src/level/block.rs:871-873 | `level` 0..=3 decodes to that fill level and a missing level to an empty cauldron |
| LevelBlock.CauldronRoundTrip | src/level/block.rs:871-873 | a cauldron with fill level 0..=3 survives encoding and decoding, and a record without a level reads as empty |
| LevelBlock.SlabDecoding | src/level/block.rs:677-683 | `type` top or bottom gives that half, `double` gives the full block of the slab's material |
| LevelBlock.DoubleSlabDecodesFull | src/level/block.rs:680 | a double oak slab record decodes to oak planks |
| LevelBlock.OakSlabRoundTrip | src/level/block.rs:828 | an oak slab of either half survives encoding and decoding |
| LevelBlock.LeavesNamed | src/level/block.rs:792-799 | the leaves of every species the table spells correctly are in it |
| LevelBlock.LeavesPropsDecode | src/level/block.rs:693-702 | the leaf properties the encoder writes read back as the same persistence and distance |
| LevelBlock.LeavesRoundTrip | src/level/block.rs:792-799 | leaves of every correctly spelt species survive encoding and decoding, persistent or with a distance |
| LevelBlock.AcaciaLeavesUnlisted | src/level/block.rs:796 | `acacia_leaves` is not a table name |
| LevelBlock.PackedMudUnlisted | src/level/block.rs:775 | `packed_mud` is not a table name |
| LevelBlock.PackedPudListed | src/level/block.rs:775 | `packed_pud` is a table name, for packed mud |
| LevelBlock.AcaciaLeavesDecodeAsUnknown | src/level/block.rs:796 | persistent acacia leaves are read back as an unknown state |
| LevelBlock.PackedMudDecodesAsUnknown | src/level/block.rs:775 | packed mud is read back as an unknown state |
| LevelBlock.WaterEntryReads | src/level/block.rs:762-765 | the water entry reads `level` 0 as water and anything else, a missing level included, as air |
| LevelBlock.WaterDecodesAsAir | src/level/block.rs:762-765 | encoded water (which has no `level`) is read back as air |
| LevelBlock.WallBannerNamed | src/level/block.rs:888-892 | each of the five banner colours in the table has an entry |
| LevelBlock.WallBannersDecodeRed | src/level/block.rs:888-892 | every wall banner in the table decodes as a red one with the same facing; only red banners survive encoding and decoding |
| LevelBlock.OtherRoundTrip | src/level/block.rs:908-941 | a registered unknown state (name outside the table, unprefixed, distinct property names) is read back as itself and re-interned at its own index |
| LevelBlock.RenderCommas | src/level/block.rs:339-347 | the rendering holds one comma per property, the last one included, and ends in `]` |
| LevelBlock.PropsTextCommas | src/level/block.rs:342-344 | each property contributes exactly one comma |
| Palette.BitsForLeast | src/world/mod.rs:452-459 | the index width is at least 4 bits, is wide enough for every palette index, and no narrower width of at least 4 bits would be |
| Palette.BitsPerIndex | src/world/mod.rs:452-459 | the loop upward from 4 returns the least width whose range holds the palette length |
| Palette.WidthAtMost13 | src/world/mod.rs:452-459 | for a section palette (at most 4097 entries) the width never exceeds 13 bits |
| Palette.Dedup | src/world/mod.rs:498-512 | the first-occurrence palette holds exactly the blocks of its input |
| Palette.DedupOrder | src/world/mod.rs:498-512 | the palette has no repeats and lists blocks in the order they first occur |
| Palette.BuildPalette | src/world/mod.rs:498-512 | the palette is Air followed by the section's blocks deduplicated in first-occurrence order, and the index map sends each palette entry to its position and knows no other block |
| Palette.PaletteShape | src/world/mod.rs:497-512 | Air is always palette entry 0, the palette is never longer than the section plus one and has no repeats |
| Palette.PlaceDisjoint | src/world/mod.rs:519-531 | the bit fields of two successive indices never overlap inside a 64-bit word |
| Palette.PlaceFits | src/world/mod.rs:519-531 | every index field ends inside its 64-bit word: no packed index straddles two words |
| Palette.IndexSeq | src/world/mod.rs:520-521 | the packed indices are the palette positions of the section's blocks, one per block |
| Palette.PackWordsPacked | src/world/mod.rs:514-531 | after packing the first i blocks every one of them reads back from its word and shift, and the unused bits are zero |
| Palette.PackedTail | src/world/mod.rs:514-531 | after the whole section every block reads back and all words fit in 64 bits |
| Palette.Pack | src/world/mod.rs:514-531 | the packing loop as written: every block's index reads back from the words, and words past those the indices need are zero |
| Palette.TrailingEmptyWordAt13Bits | src/world/mod.rs:526-530 | at 13 bits (a 4097-entry palette) the loop writes 1025 words where 1024 hold data; for 4 to 12 bits it writes exactly what is needed |
| Palette.NarrowerWidths | src/world/mod.rs:526-530 | for widths 4 to 12 the words written equal the words needed |
| Palette.PackIntended | src/world/mod.rs:526-530 | the corrected packing that never pushes a word after the last block: exactly the needed number of words, every block reads back |
| Palette.Unpack | src/world/mod.rs:411-423 | reading succeeds exactly when every word touched exists and every field names a palette entry, and then block i is the palette entry of field i |
| Palette.EncodeSection | src/world/mod.rs:493-531 | a section encodes as its Air-first palette, the least width, the words the packing loop writes (one more than the fields need at 13 bits), and fields that name each block's palette entry |
| Palette.SectionRoundTrip | src/world/mod.rs:411-423 | decoding an encoded section gives back the section's blocks |
| World.ChunkIndexIn | src/world/mod.rs:244-256 | a chunk has an index exactly when it lies inside the loaded chunk rectangle |
| World.ChunkIndexInjective | src/world/mod.rs:244-256 | distinct loaded chunks get distinct indices, all below the chunk count |
| World.ChunkIndexOnto | src/world/mod.rs:244-256 | every index below the chunk count is the index of some loaded chunk |
| World.ChunkIndexRowMajor | src/world/mod.rs:252-254 | chunk indices run row by row: x first, then z |
| World.SectionIndexIn | src/world/mod.rs:258-260 | a position has a section index exactly when its chunk is loaded, and the index fits the unsigned word |
| World.SectionIndexOfLevel | src/world/mod.rs:258-260 | for heights 0 to 319 the section index is the chunk's base plus the section level plus 4 |
| World.NegativeLevelsAlias | src/world/mod.rs:258-260 | heights -15 to -1 map to the same section and slot as 16 blocks higher, because the division truncates toward zero |
| World.BlockInSectionIndex | src/world/mod.rs:267-269 | the slot of a position inside its section is below 4096 |
| World.BlockInSectionIndexExact | src/world/mod.rs:267-269 | two positions share a slot exactly when their coordinates agree modulo 16, and every slot belongs to its offset |
| World.ColumnIndexIn | src/world/mod.rs:262-265 | a column has an index exactly when its chunk is loaded, and the index is below the number of loaded columns |
| World.ColumnIndexInjective | src/world/mod.rs:262-265 | distinct loaded columns get distinct indices into the height and water maps |
| World.AreaOfChunks | src/world/mod.rs:285-291 | the view area holds exactly the columns of loaded chunks, and the world area is the view shrunk by the load margin on each side |
| World.AllAir | src/world/mod.rs:567-574 | a default section is 4096 Air blocks |
| World.ReadAfterWrite | src/world/mod.rs:295-307 | after a write the written slot reads the new block, every other slot reads as before, and a fresh section is otherwise Air |
| World.Interiors | src/world/mod.rs:188-196 | the chunks saved are exactly the interior ones, each once, in index order |
| World.InteriorSaved | src/world/mod.rs:188-196 | every interior chunk is loaded and is among the chunks saved |
| World.World.constructor | src/world/mod.rs:97-119 | a new world has every section empty, every height 0 and no water level |
| World.World.Locate | src/world/mod.rs:295-301 | a position is addressable exactly when its section index is inside the section table, and then it is that section and slot |
| World.World.Get | src/world/mod.rs:295-301 | reading succeeds exactly for addressable positions and gives Air in an empty section, otherwise the stored block |
| World.World.GetMut | src/world/mod.rs:303-307 | a missing section is created full of Air, nothing else changes, and an unaddressable position panics with the world unchanged |
| World.World.Set | src/world/mod.rs:47-49 | the addressed slot takes the block, every other block and both maps stay, and an unaddressable position panics with the world unchanged |
| World.World.SetIfNotSolid | src/world/mod.rs:54-59 | the block is written unless the current one is solid, in which case only the section is materialised |
| World.World.LoadChunk | src/world/mod.rs:350-450 | loading succeeds exactly when the section records decode, then splices the decoded sections and re-scanned maps into this chunk's slots and leaves every other chunk alone |
| World.World.New | src/world/mod.rs:97-140 | the world is built exactly when every chunk's records load, and then it spans the given chunk rectangle and every chunk holds the sections and maps its records load to |
| World.World.LoadNext | src/world/mod.rs:127-138 | one more chunk, still empty, is loaded: it succeeds exactly when its records load, and then the chunks up to it hold what their records load to and the rest are still empty |
| World.World.Save | src/world/mod.rs:166-200 | saving succeeds exactly when every interior chunk serialises, and then returns one saved chunk per interior chunk in order |
| World.World.SaveChunkAt | src/world/mod.rs:182-196 | handling chunk k keeps the saved list equal to the interior chunks below k + 1, and panics only when some interior chunk does not serialise |
| World.World.SerialisableStops | src/world/mod.rs:182-197 | once one chunk fails to serialise, no longer prefix of chunks succeeds |
| World.World.Height | src/world/mod.rs:324-326 | a column's height is available exactly when its chunk is loaded, and is that column's height-map entry |
| World.World.WaterLevel | src/world/mod.rs:333-335 | a column's water level is available exactly when its chunk is loaded, and is that column's water-map entry |
| World.GetInside | src/world/mod.rs:258-301 | every position of a loaded chunk between heights 0 and 319 is readable, at the section its level names |
| World.SectionTopDown | src/world/mod.rs:429-433 | a section's column is listed top down, each block paired with its height |
| World.ScanHeight | src/world/mod.rs:427-447 | the height map gets the level of the topmost solid block that is not a log, lowered by a further 64 as the source's formula does, or keeps its old value when there is none |
| World.ScanWater | src/world/mod.rs:440-442 | the water map gets the level of the first water met from the top above the stopping block, or keeps its old value |
| World.ScanColumn | src/world/mod.rs:429-446 | the column scan from section 19 down computes the scan of the column listed top down |
| World.ScanSection | src/world/mod.rs:430-444 | scanning one section top down either stops with the result of the whole column scan or hands on a state from which the rest of the column gives that result |
| World.ScanChunk | src/world/mod.rs:427-447 | scanning all 256 columns yields the height and water maps the scan specifies |
| World.DecodePalette | src/world/mod.rs:403-404 | a palette decodes exactly when every entry decodes, entry by entry |
| World.LoadRecord | src/world/mod.rs:391-423 | one section record touches only its own slot, and a level outside 0 to 14 is skipped |
| World.LoadRecordsFrame | src/world/mod.rs:394-396 | slots no record names, and the slots below level 0 or above 14, keep what they held |
| World.LoadRecordsPanicStays | src/world/mod.rs:391-424 | once a record fails to decode the whole chunk load fails |
| World.LoadSections | src/world/mod.rs:391-424 | the section loop succeeds exactly when the records decode in order, with their result |
| World.SomeSlotsExact | src/world/mod.rs:486-491 | the sections written are exactly the non-empty ones, in level order |
| World.EncodePalette | src/world/mod.rs:499-512 | a palette encodes exactly when every entry encodes, entry by entry |
| World.TileEntityPosition | src/world/mod.rs:535-542 | a tile entity's position lies in the chunk saved, at the slot of its block, and at the section's level for levels 0 and up |
| World.SaveSections | src/world/mod.rs:483-551 | a chunk saves exactly when every block of every non-empty section serialises, with one record per non-empty section and the tile entities of all of them |
| World.SaveStep | src/world/mod.rs:489-550 | one more section keeps the records and tile entities of the saved prefix, and fails exactly when that section holds a block that does not serialise |
| World.SaveSection | src/world/mod.rs:489-549 | a section's record is produced exactly when its blocks serialise, and it encodes the section: its level, its palette's NBT, the words the packing loop writes and fields that lead back to each block |
| World.PaletteSerialisable | src/world/mod.rs:498-512 | the palette serialises exactly when the section's blocks do |
| World.Reloaded | src/world/mod.rs:394-396 | a saved chunk reloads sections 4 to 18 and drops the rest |
| World.PaletteRoundTrips | src/world/mod.rs:498-512 | if every block survives a trip through NBT, so does every palette entry |
| World.DecodeEncodedPalette | src/world/mod.rs:403-404 | a palette whose entries each read back decodes to itself |
| World.DecodeSavedPalette | src/world/mod.rs:403-404 | the palette a section saves decodes to the section's palette when its blocks survive NBT |
| World.UnpackedEncoded | src/world/mod.rs:411-423 | the data a section saves unpacks with that palette to the section's blocks |
| World.LoadReadable | src/world/mod.rs:398-423 | a readable record at level 0 to 14 replaces exactly its own slot with the unpacked blocks |
| World.LoadEncoded | src/world/mod.rs:391-424 | a saved section reloads into its slot when its level is 0 to 14 and is skipped otherwise |
| World.LoadSavedPrefix | src/world/mod.rs:391-424 | loading the first j records saved for a list of sections gives back, of the first j of them, those at levels 0 to 239 |
| World.ReloadedAll | src/world/mod.rs:394-396 | restoring every written section at levels 0 to 239 is exactly what reloading a saved chunk gives |
| World.ChunkRoundTrip | src/world/mod.rs:461-551 | loading the records a chunk saves gives back sections 4 to 18 of that chunk and nothing else |
| BuildRecorder.Recorder.constructor | src/build_recorder.rs:9-18 | a new recorder wraps the world with no recorded blocks, heights or water levels |
| BuildRecorder.Recorder.Get | src/build_recorder.rs:30-32 | a recorded position reads its recorded block, any other reads the underlying world |
| BuildRecorder.Recorder.GetMut | src/build_recorder.rs:34-37 | a first access records the world's block with no tile entity at the end of the insertion order, a repeated one changes nothing, and no position reads differently |
| BuildRecorder.Recorder.Set | src/world/mod.rs:47-49 | the position reads the new block, keeps its tile entity and insertion place if it had one, and no other position changes |
| BuildRecorder.Recorder.Height | src/build_recorder.rs:43-45 | a recorded column reads its recorded height, any other the world's |
| BuildRecorder.Recorder.SetHeight | src/build_recorder.rs:47-50 | writing through the height handle records the column's new height and changes no other column |
| BuildRecorder.Recorder.Water | src/build_recorder.rs:52-54 | a recorded column reads its recorded water level, any other the world's |
| BuildRecorder.Recorder.SetWater | src/build_recorder.rs:56-59 | writing through the water handle records the column's new level and changes no other column |
| BuildRecorder.Recorder.Finish | src/build_recorder.rs:20-26 | the record keeps exactly the entries whose block differs from the world or that carry a tile entity, unchanged and in insertion order, and both maps whole |
| BuildRecorder.Filtered | src/build_recorder.rs:22-24 | the retained order holds exactly the recorded positions that changed or carry a tile entity |
| BuildRecorder.FilteredLinked | src/build_recorder.rs:22-24 | retaining keeps the insertion order free of repeats |
| BuildRecorder.FinishedShowsRecorder | src/build_recorder.rs:20-32 | applying the finished record over the world shows every position as the recorder did: dropped entries held the world's own block |
| BuildRecorder.ApplyBlocks | src/build_recorder.rs:74-79 | every recorded position takes its recorded block and every other block stays |
| BuildRecorder.ApplyHeights | src/build_recorder.rs:80-82 | every recorded column takes its recorded height and every other stays |
| BuildRecorder.ApplyWaters | src/build_recorder.rs:83-85 | every recorded column takes its recorded water level and every other stays |
| BuildRecorder.ApplyTo | src/build_recorder.rs:73-86 | the target afterwards shows the record wherever it has an entry and its old content everywhere else, for blocks, heights and water levels |
| BuildRecorder.Commands | src/build_recorder.rs:88-105 | one setblock command per recorded block, in insertion order, with its block and tile entity |
| Structures.ReadPos | src/structures/mod.rs:59-64 | a position list reads exactly when its first three tags are ints, taken in the file's x, height, z order and swapped into the model's x, y, height order |
| Structures.ReadPosRoundTrip | src/structures/mod.rs:59-64 | reading a written position gives it back, and a list that reads starts with the written form of what it read |
| Structures.MarkerDir | src/structures/mod.rs:91-101 | the facing of a marker is the first of xpos, xneg, zpos, zneg present in its tags, in that priority, and none when no such tag is present |
| Structures.MarkerName | src/structures/mod.rs:83-89 | a marker's name is the rest of its first tag that starts with name:, and there is one exactly when such a tag exists |
| Structures.ReadMarker | src/structures/mod.rs:72-105 | an entity with a readable block position and `nbt` yields nothing unless it is an armor stand; an armor stand with a `name:` tag yields the marker named by its first such tag, at its block position, with its tags and facing; an unnamed armor stand panics with "Unnamed marker"; a missing position or `nbt` panics |
| Structures.Collect | src/structures/mod.rs:69-107 | collecting markers succeeds exactly when every entity reads |
| Structures.CollectContents | src/structures/mod.rs:102-107 | the marker map names exactly the markers found, and a name found twice keeps its last marker |
| Structures.Markers | src/structures/mod.rs:69-107 | the markers of a file are read exactly when every entity reads |
| Structures.ReadBlock | src/structures/mod.rs:127-129 | a block entry reads exactly when it has a position and an in-range palette state, and gives the block at its offset from the origin |
| Structures.ReadBlocks | src/structures/mod.rs:127-129 | the block list reads exactly when every entry reads, entry by entry |
| Structures.Solids | src/structures/mod.rs:131-137 | the building pass holds only entries from the file that are not Air |
| Structures.Airs | src/structures/mod.rs:131-134 | the clearing pass holds only the file's Air entries |
| Structures.BuildOrderPermutes | src/structures/mod.rs:124-139 | the build order is a permutation of the file's entries: each is built exactly once |
| Structures.BuildOrderAirLast | src/structures/mod.rs:124-139 | every Air entry comes after every solid one in the build order |
| Structures.BuildOrderOfLater | src/structures/mod.rs:127-139 | a later solid file entry is built before the solid entries ahead of it, and a later air entry is cleared after the air ahead of it: solid blocks in reverse file order, air in file order |
| Structures.OrderBlocks | src/structures/mod.rs:124-139 | the block loop succeeds exactly when every entry reads, and then gives the read entries in build order |
| Structures.ReadEntry | src/structures/mod.rs:117 | a palette entry panics exactly when its NBT cannot be decoded, a known block reads as itself and an unknown one as a registry reference that names its state |
| Structures.ReadPalette | src/structures/mod.rs:114-118 | the palette reads exactly when every entry decodes, entry by entry, only adds to the registry, and every unknown entry names its state there |
| Structures.LoadFromNbt | src/structures/mod.rs:54-146 | a loaded prefab has the file's size, its markers including an origin, the palette its entries decode to and its blocks in build order relative to the origin; a file without an origin marker panics; the load succeeds exactly when the size reads, the markers read and include an origin, no palette state fails to decode, and every block entry has a readable position and a state inside the palette |
| Structures.Level.Set | src/structures/mod.rs:151 | indexing the level writes one block and leaves every other |
| Structures.Rotation | src/structures/mod.rs:149 | the rotation exists exactly when the origin marker has a facing, lies between 1 and 7, and turns that facing into the requested one |
| Structures.Build | src/structures/mod.rs:148-153 | each position ends with the last block the turned, wood-swapped entries write there, and a prefab without a faced origin panics with the level unchanged |
| Structures.BuildPlacesEach | src/structures/mod.rs:148-153 | when offsets are distinct, every entry ends at its turned position as its turned, wood-swapped block |
| Structures.ClippedPlacements | src/structures/mod.rs:157-161 | every write of the clipped build lies in a column of the area |
| Structures.BuildClipped | src/structures/mod.rs:155-163 | each position ends with the last turned entry written there inside the area, and every position outside the area keeps its block |
| RemoveFoliage.Terrain.Get | src/world/mod.rs:295-301 | reading the world succeeds exactly inside its bounds and gives the block there |
| RemoveFoliage.Terrain.Set | src/world/mod.rs:47-49 | writing succeeds exactly inside the bounds, changes only that position, and a panic leaves the world unchanged |
| RemoveFoliage.Terrain.Height | src/world/mod.rs:324-326 | a column's ground height is available exactly when the world covers the column |
| RemoveFoliage.Terrain.WaterLevel | src/world/mod.rs:333-335 | a column's water level is available exactly when the world covers the column |
| RemoveFoliage.ClearedOnlyPlants | src/remove_foliage.rs:6-20 | clearing changes a block exactly when it is a ground plant in the area one or two above the water level or, without water, the ground, and then only to Air |
| RemoveFoliage.ClearedIdempotent | src/remove_foliage.rs:6-20 | clearing a cleared area changes nothing more |
| RemoveFoliage.ClearColumn | src/remove_foliage.rs:8-18 | one column succeeds exactly when its base level and the two blocks above are in the world, and then clears the plants there; on any outcome it only clears such plants |
| RemoveFoliage.Ground | src/remove_foliage.rs:6-20 | the whole pass succeeds exactly when every column is safe and then clears exactly the plants the clearing relation names; every outcome only ever clears such plants |
| RemoveFoliage.RingAt | src/remove_foliage.rs:49-51 | the ring loop visits the nine positions of the 3 by 3 layer around the trunk, each at its own turn |
| RemoveFoliage.Roots | src/remove_foliage.rs:46-58 | below every log of the tree in the ring a log of the same kind appears, nothing else changes, and the call panics exactly when the ring or a place below a log is out of bounds |
| RemoveFoliage.Cut | src/remove_foliage.rs:68-87 | the cut becomes Air, each log of the tree in the ring becomes Air unless a log lies below it and the draw keeps it, and the call panics exactly when the cut layer or the one below is out of bounds |
| RemoveFoliage.NearAt | src/remove_foliage.rs:94-98 | the trunk loop visits the 3 by 3 by 3 neighbourhood of a log in x, then y, then z order |
| RemoveFoliage.Visit | src/remove_foliage.rs:98-108 | one neighbour panics exactly when out of bounds; it only changes a log of the tree above the stump to Air, and a log of the tree it leaves in place is found and pushed |
| RemoveFoliage.Expand | src/remove_foliage.rs:93-112 | after expanding a log, every log of the tree left in its neighbourhood has been found and queued, and only newly found logs of the tree above the stump were turned to Air |
| RemoveFoliage.FloodFill | src/remove_foliage.rs:89-113 | the corrected trunk search: only newly found logs of the tree change, to Air above the stump; on success no log of the tree is left next to a found position without being found, and the stem area covers the start area and every found position |
| RemoveFoliage.ScanPushes | src/remove_foliage.rs:94-108 | with a stump, a log of the tree at or below the stump in the neighbourhood is pushed again every time its neighbour is expanded |
| RemoveFoliage.StepKeeps | src/remove_foliage.rs:92-113 | with a stump, one turn of the loop keeps a kept log on the stack and leaves it a log |
| RemoveFoliage.NeverEmpties | src/remove_foliage.rs:92-113 | with a stump, once a kept log is on the stack or next to its top the stack is never empty, however many turns the loop runs |
| RemoveFoliage.StumpNeverFinishes | src/remove_foliage.rs:46-113 | with leave_stump the loop as written never ends: after roots and cut, the stack is non-empty after any number of turns |
| RemoveFoliage.StumpLog | src/remove_foliage.rs:45-85 | after the roots and the cut with a stump left, a log of the tree lies at or below the stump height next to where the trunk search starts: the root under `pos` after the lower cut, `pos` itself after the upper one |
| RemoveFoliage.Index | src/remove_foliage.rs:136-140 | the check-area index of a position lies inside the vector |
| RemoveFoliage.IndexInjective | src/remove_foliage.rs:136-140 | distinct positions of the check area get distinct indices |
| RemoveFoliage.UnindexIndex | src/remove_foliage.rs:136-142 | the orderly walk of the area visits the position whose index is its turn, so index and walk agree |
| RemoveFoliage.Snapshot | src/remove_foliage.rs:132-144 | the vector holds each check-area block with the decay distance, at its index, and the call panics exactly when some of the area is out of bounds |
| RemoveFoliage.SnapshotComplete | src/remove_foliage.rs:142-144 | filling the vector in walk order leaves every position's block at its own index |
| RemoveFoliage.Offer | src/remove_foliage.rs:164-168 | a neighbour offers 0 exactly when it is a log of the tree or a leaf at distance 0, a leaf offers its distance, and anything else the decay distance |
| RemoveFoliage.SurroundLeast | src/remove_foliage.rs:155-170 | the neighbours' minimum is no more than any one neighbour's offer |
| RemoveFoliage.SurroundAttained | src/remove_foliage.rs:155-170 | the neighbours' minimum is the offer of one of the six neighbours |
| RemoveFoliage.RelaxAtLowers | src/remove_foliage.rs:153-173 | looking at one position never raises a distance and changes no other entry |
| RemoveFoliage.RelaxAtSound | src/remove_foliage.rs:171-172 | a lowered distance is backed by a real path of leaves to a log of the tree of that length |
| RemoveFoliage.RelaxAtComplete | src/remove_foliage.rs:171-172 | a leaf with a path of k steps to a log sees a neighbour that offers at most k minus one |
| RemoveFoliage.RelaxStepTracks | src/remove_foliage.rs:153-173 | one relaxation step keeps every distance an upper bound of a real path and at most the decay distance |
| RemoveFoliage.RelaxStep | src/remove_foliage.rs:152-175 | after the step at the i-th inner position the distances reached by earlier passes stay and that position has the next pass's bound |
| RemoveFoliage.SweepRelaxing | src/remove_foliage.rs:152-175 | pass j+1 gives every leaf with a path of j+1 steps to a log a distance of at most j+1 |
| RemoveFoliage.PassesRelaxed | src/remove_foliage.rs:151-176 | after n passes over the snapshot every leaf within n steps of a log has at most that distance, and every distance below the decay distance is a real path |
| RemoveFoliage.RelaxOne | src/remove_foliage.rs:153-173 | one loop turn on the array updates it as one relaxation step |
| RemoveFoliage.RelaxPass | src/remove_foliage.rs:152-175 | the inner loop on the array performs one full pass |
| RemoveFoliage.Relax | src/remove_foliage.rs:151-176 | the outer loop performs six passes over the array |
| RemoveFoliage.NextToLog | src/remove_foliage.rs:151-176 | after relaxation a leaf next to a log of the tree has distance at most 1 |
| RemoveFoliage.Settled | src/remove_foliage.rs:151-176 | after relaxation a leaf keeps the decay distance exactly when no path of five or fewer leaf steps joins it to a log of the tree |
| RemoveFoliage.Remove | src/remove_foliage.rs:178-186 | the removal loop turns into Air exactly the tree's leaves in the removal area still at the decay distance, and panics exactly when one of them is out of bounds |
| RemoveFoliage.DoomedDecays | src/remove_foliage.rs:116-186 | a leaf is removed exactly when it is a leaf of the tree in the removal area that no log of the tree in the check area holds up within five steps |
| RemoveFoliage.Decay | src/remove_foliage.rs:116-187 | the leaf pass removes exactly the leaves that would decay without the felled tree, and panics with the world unchanged when the check area leaves the world |
| RemoveFoliage.FelledAt | src/remove_foliage.rs:36-189 | the roots, the cut, the trunk search and the leaf pass together only ever clear the cut, logs and leaves of the tree, or put roots under the stump |
| RemoveFoliage.TrunkCleared | src/remove_foliage.rs:89-113 | when the corrected search ends, no log of the tree above the stump remains next to any trunk position it found |
| RemoveFoliage.TrunkStaysGone | src/remove_foliage.rs:116-187 | removing leaves afterwards cannot bring a trunk log back |
| RemoveFoliage.Tree | src/remove_foliage.rs:36-189 | a position outside the world panics and one that is not a log changes nothing; otherwise only the tree's cut, logs and leaves are cleared or roots grown, and on success the trunk is gone |
| RemoveFoliage.Trees | src/remove_foliage.rs:22-29 | only Air or logs replace blocks, nothing changes when no column has a log on top of the ground, and without stumps no felled column keeps a log on top |
| RemoveFoliage.WithinMonotone | src/remove_foliage.rs:151-176 | a leaf within k steps of a log is within any larger number of steps |
| Common.StripPrefix | src/level/block.rs:673 | a name with the prefix loses exactly that prefix, any other is kept whole |
| Common.ParseU8OfToString | src/level/block.rs:872 | a cauldron level written as decimal text parses back to the same value |
| Common.ParseI8OfToString | src/level/block.rs:697 | a leaf distance written by to_string parses back to the same signed byte, negative values included |

## Left out

- The geometry module is not part of this model. Geometry defines the meanings the core
  relies on:
  - HDir ordinals XPos 0, YPos 1, XNeg 2, YNeg 3, with rotation adding turns modulo 4;
  - quarter turns of positions;
  - chunks of a column by floor division by 16;
  - `Rect::shrink`;
  - cuboid containment and the walk order of `Cuboid::iter`, x fastest, then z, then y.
- `LOAD_MARGIN` is defined outside the core, so the world area takes the margin as a
  parameter.
- Region files, level.dat, Village.dat, prefab files and the NBT library are not modelled.
  Their parsing, compression and byte layout are all left out. Chunk data enters and leaves
  as section records holding a level, a palette of compound tags and the packed words. A
  compound tag is an association list.
- World.World.Save: the save side stops at the records. Metadata edits (timestamps, game
  rules, spawn), entity bucketing, biomes and the written NBT around the sections are left
  out.
- Concurrency is left out: rayon's parallel chunk loading, the villages mutex, the lock around
  the unknown-state registry, its thread-local cache, and the prefab cache mutex. The
  registry is a single object used sequentially.
- The random draws in `tree` are parameters:
  - `cutLow` is the 30% chance of cutting at the root layer;
  - `keep` is the 20% chance of keeping a ring log above another log.

  Tree species and the order of columns in `trees` are inputs.
- RemoveFoliage.Terrain: the foliage routines run on a world with one bounding cuboid. Reading
  or writing outside it panics, as indexing outside the loaded chunks does. The chunk and
  section layout of the real world is modelled separately in World.
- RemoveFoliage.Tree: does not state exactly which inputs panic. It states what every outcome
  may change, that a position outside the world panics unchanged, that a non-log does
  nothing, and that a successful run leaves no trunk log.
- RemoveFoliage.Trees: does not state exactly which inputs panic, nor which columns are felled.
  It states what every outcome may change, and it states the result when no column has a log
  on top.
- RemoveFoliage.FloodFill: this is the corrected trunk search; see Findings. It does not push
  a log again once it is found. The search as written is modelled by FloodStep and Run, which
  have no bounds checks. The model uses the corrected search because the search as written
  never ends when a stump is left.
- Block entities other than the tile-entity records are not modelled. The `commands` text
  rendering (block names, byte encodings, tile-entity NBT text) is left out: a command is a
  datatype holding the position, the block and the tile entity.
- Machinery is left out: `Cow` and `Arc` representations, the size assertion on `Block`, and
  hashing.
- Palette: entries are encoded per block. The to_nbt and from_nbt conversions of palette
  entries are composed only in the chunk round trip, which assumes that every block
  survives NBT.
- src/sim/lumberjack.rs, src/terraform.rs, src/rand.rs and the binaries under src/bin are not
  part of this model. They cover ECS systems, floating-point terrain work, RNG state and
  command-line entry points.
- Integer widths: section levels are signed bytes, the unknown-state index is 16 bits and
  recorder heights are 8 bits. Each is modelled as a range. A truncation (the interning
  index) is written out.

## Findings

| source | as written | input that shows it | evidently intended | confidence | as-written member | corrected member |
|---|---|---|---|---|---|---|
| src/remove_foliage.rs:90-113 | with leave_stump the neighbourhood reaches one level down, and every same-species log at or below the stump height is set back to a log and pushed again, including the popped position itself | any call of tree with leave_stump true on a log: the roots put a log at the stump height below the origin, and the loop pushes it again every time it is popped | visit each log once, and push only the logs it removes or has not seen | high, not executed | RemoveFoliage.StumpNeverFinishes | RemoveFoliage.FloodFill |
| src/world/mod.rs:526-530 | after the last block a new word is pushed whenever the shift resets and 64 is not a multiple of the width | a section whose palette, Air included, has 4097 entries: at 13 bits four indices fill each word, the shift resets at block 4095, and 1025 words are written where 1024 hold data | never push a word after the last block, as the comment beside the condition says | medium, not executed | Palette.TrailingEmptyWordAt13Bits | Palette.PackIntended |

The save path (World.SaveSection through Palette.EncodeSection) writes what `save_chunk`
writes: it packs with Palette.Pack, the loop as written, so a 13-bit section carries the
surplus zero word. The chunk round trip holds all the same, because loading reads only the
4096 fields and never the last word. Palette.PackIntended is the corrected loop, with its
exact word count proved beside it.
