/** The board: a rectangle of optional tiles stored row by row (src/components/grid.rs). */
module Grids {
  import opened Wrappers
  import opened Tiles

  /** Row-major indices of in-bounds positions are non-negative. */
  lemma RowMajorIndex(w: int, x: int, y: int)
    requires 0 <= x < w && 0 <= y
    ensures 0 <= y * w + x
  {
  }

  /** Two in-bounds positions with the same row-major index are the same position. */
  lemma {:induction false} RowMajorInjective(w: int, x1: int, y1: int, x2: int, y2: int)
    requires 0 <= x1 < w && 0 <= x2 < w && 0 <= y1 && 0 <= y2
    requires y1 * w + x1 == y2 * w + x2
    ensures x1 == x2 && y1 == y2
  {
    if y1 < y2 {
      RowsApart(w, y1, y2);
    } else if y2 < y1 {
      RowsApart(w, y2, y1);
    }
  }

  /** A later row starts at least one full row further on. */
  lemma RowsApart(w: int, lo: int, hi: int)
    requires 0 <= lo < hi && 0 < w
    ensures hi * w >= lo * w + w
  {
    var k := hi - lo - 1;
    assert hi * w == lo * w + w + k * w;
    assert k * w >= 0;
  }

  /** The value of a grid: its dimensions and its cells, row by row; `None` is a hole. */
  datatype GridData = GridData(width: int, height: int, tiles: seq<Option<Tile>>) {

    /** `is_in_bounds`: the rectangle test alone; an in-bounds position has a row-major index inside the rectangle. */
    function IsInBounds(x: int, y: int): (b: bool)
      ensures b <==> 0 <= x < width && 0 <= y < height
      ensures b ==> 0 <= y * width + x < width * height
    {
      if x >= 0 && y >= 0 && x < width && y < height then
        RowsApart(width, y, height);
        true
      else false
    }

    /** `get_index`: the row-major index of an in-bounds position. */
    function GetIndex(x: int, y: int): (r: Option<nat>)
      ensures r.Some? <==> IsInBounds(x, y)
      ensures r.Some? ==> r.value == y * width + x
    {
      if IsInBounds(x, y) then
        RowMajorIndex(width, x, y);
        Some(y * width + x)
      else None
    }

    /**
     * `get_tile_at`: the tile at (x, y); `None` outside the rectangle, on a hole,
     * or past the end of `tiles`. It never fails.
     */
    function GetTileAt(x: int, y: int): (r: Option<Tile>)
      ensures !IsInBounds(x, y) ==> r.None?
      ensures r.Some? ==> y * width + x < |tiles| && tiles[y * width + x] == r
      ensures IsInBounds(x, y) && y * width + x < |tiles| ==> r == tiles[y * width + x]
    {
      if x < 0 || y < 0 || x >= width || y >= height then None
      else
        RowMajorIndex(width, x, y);
        var index := y * width + x;
        if index < |tiles| then tiles[index] else None
    }

    /** `is_valid_position`: a robot may stand at (x, y) exactly when a tile is there. */
    function IsValidPosition(x: int, y: int): (ok: bool)
      ensures ok <==> IsInBounds(x, y) && GetTileAt(x, y).Some?
    {
      if x < 0 || y < 0 || x >= width || y >= height then false
      else GetTileAt(x, y).Some?
    }

    /** `get_tile_at_mut`: the index of the tile it lends for update, which is the tile `get_tile_at` reads. */
    function MutTileIndex(x: int, y: int): (r: Option<nat>)
      ensures r.Some? ==> r.value < |tiles| && tiles[r.value].Some? && tiles[r.value] == GetTileAt(x, y)
      ensures r.Some? ==> GetIndex(x, y) == r
      ensures r.None? <==> GetTileAt(x, y).None?
    {
      if x < 0 || y < 0 || x >= width || y >= height then None
      else
        RowMajorIndex(width, x, y);
        var index := y * width + x;
        if index < |tiles| && tiles[index].Some? then Some(index) else None
    }
  }

  /** The grid component, whose cells are updated in place. */
  class Grid {
    var width: int
    var height: int
    var tiles: seq<Option<Tile>>

    constructor (width: int, height: int, tiles: seq<Option<Tile>>)
      ensures Data() == GridData(width, height, tiles)
    {
      this.width := width;
      this.height := height;
      this.tiles := tiles;
    }

    function Data(): GridData
      reads this
    {
      GridData(width, height, tiles)
    }

    /**
     * `set_tile_at`: replaces the cell at (x, y) when the position is in bounds and its
     * index is inside `tiles`; otherwise nothing changes. The length never changes.
     */
    method SetTileAt(x: int, y: int, tile: Option<Tile>)
      modifies this
      ensures width == old(width) && height == old(height) && |tiles| == |old(tiles)|
      ensures var i := old(Data()).GetIndex(x, y);
              if i.Some? && i.value < |old(tiles)| then tiles == old(tiles)[i.value := tile]
              else tiles == old(tiles)
      ensures var i := old(Data()).GetIndex(x, y);
              i.Some? && i.value < |old(tiles)| ==> Data().GetTileAt(x, y) == tile
      ensures forall x', y' :: (x', y') != (x, y) ==> Data().GetTileAt(x', y') == old(Data()).GetTileAt(x', y')
    {
      var i := Data().GetIndex(x, y);
      if i.Some? {
        if i.value < |tiles| {
          tiles := tiles[i.value := tile];
        }
      }
      forall x', y' | (x', y') != (x, y)
        ensures Data().GetTileAt(x', y') == old(Data()).GetTileAt(x', y')
      {
        if i.Some? && old(Data()).IsInBounds(x', y') {
          RowMajorIndex(width, x', y');
          if y' * width + x' == y * width + x {
            RowMajorInjective(width, x', y', x, y);
          }
        }
      }
    }
  }
}
