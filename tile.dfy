/** Grid cells and their colours (src/structs/tile.rs). */
module Tiles {

  /** Tile colours; Gray is the default. */
  datatype TileColor = Gray | Red | Green | Blue

  /** A grid cell. `hasStar` is fixed when the level is loaded; `starCollected` changes during play. */
  datatype Tile = Tile(x: int, y: int, color: TileColor, hasStar: bool, starCollected: bool)

  /** `Tile::new`: a tile whose star, if any, is not yet collected. */
  function NewTile(x: int, y: int, color: TileColor, hasStar: bool): (t: Tile)
    ensures !t.starCollected
    ensures t.x == x && t.y == y && t.color == color && t.hasStar == hasStar
  {
    Tile(x, y, color, hasStar, false)
  }

  /** `TileColor::from_char`: R, G and B name their colours; every other character means Gray. */
  function ColorFromChar(c: char): (col: TileColor)
    ensures col == Red <==> c == 'R'
    ensures col == Green <==> c == 'G'
    ensures col == Blue <==> c == 'B'
    ensures col == Gray <==> c !in "RGB"
  {
    match c
    case 'R' => Red
    case 'G' => Green
    case 'B' => Blue
    case _ => Gray
  }
}
