/** Enumerations shared verbatim by both block layouts (src/world/block.rs and
    src/level/block.rs): dye colours, crops and bell attachments. */
module BlockKinds {

  datatype Color =
    | White | Orange | Magenta | LightBlue | Yellow | Lime | Pink | Gray | LightGray | Cyan
    | Purple | Blue | Brown | Green | Red | Black

  function ColorStr(c: Color): string {
    match c
    case White => "white"
    case Orange => "orange"
    case Magenta => "magenta"
    case LightBlue => "light_blue"
    case Yellow => "yellow"
    case Lime => "lime"
    case Pink => "pink"
    case Gray => "gray"
    case LightGray => "light_gray"
    case Cyan => "cyan"
    case Purple => "purple"
    case Blue => "blue"
    case Brown => "brown"
    case Green => "green"
    case Red => "red"
    case Black => "black"
  }

  datatype CropType = Wheat | Carrot | Potato | Beetroot

  /** The block state of a fully grown crop: its name and its `age` value. */
  function CropState(c: CropType): (string, string) {
    match c
    case Wheat => ("wheat", "7")
    case Carrot => ("carrot", "7")
    case Potato => ("potato", "7")
    case Beetroot => ("beetroot", "3")
  }

  datatype BellAttachment = Floor | Ceiling | SingleWall | DoubleWall

  function AttachmentStr(a: BellAttachment): string {
    match a
    case Floor => "floor"
    case Ceiling => "ceiling"
    case DoubleWall => "double_wall"
    case SingleWall => "single_wall"
  }

  /** The attachment read back from its name; an unrecognised name counts as double wall. */
  function AttachmentFromStr(s: string): (a: BellAttachment)
    ensures AttachmentStr(a) == s || a == DoubleWall
  {
    if s == "floor" then Floor
    else if s == "ceiling" then Ceiling
    else if s == "single_wall" then SingleWall
    else DoubleWall
  }

  /** A bell's attachment survives being written out and read back. */
  lemma AttachmentRoundTrip(a: BellAttachment)
    ensures AttachmentFromStr(AttachmentStr(a)) == a
  {
  }
}
