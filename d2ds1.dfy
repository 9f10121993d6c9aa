/** What the DS1 (layout) decoder yields (package d2ds1). */
module D2ds1 {
  import opened D2common

  /** One layout cell. `layers` stands for the decoded floor, wall, shadow and
      substitution records, which the stamp never changes; `regionType` is the
      region tag the stamp overwrites. */
  datatype TileRecord = TileRecord(layers: seq<int>, regionType: int)

  /** One placement embedded in a layout: a kind, an id, a local position
      and an optional waypoint path in the same local space. */
  datatype Object = Object(objectType: int, id: int, x: int, y: int, flags: int, paths: seq<Path>)

  /** The decoder's result as a value: the declared header size, the act,
      the grid as rows of cells (rows may differ in length) and the placements. */
  datatype Decoded = Decoded(
    width: int,
    height: int,
    act: int,
    tiles: seq<seq<TileRecord>>,
    objects: seq<Object>)

  /** A decoded layout in memory. The grid is a slice of row slices whose cells
      are updated in place, hence an array of row arrays. */
  class DS1 {
    const width: int
    const height: int
    const act: int
    const tiles: array<array<TileRecord>>
    const objects: seq<Object>

    /** The row arrays of the grid. */
    ghost function Rows(): set<array<TileRecord>>
      reads tiles
    {
      set r | 0 <= r < tiles.Length :: tiles[r]
    }

    /** No two rows share an array, so writing one cell changes exactly one cell. */
    ghost predicate Valid()
      reads tiles
    {
      forall r, s :: 0 <= r < s < tiles.Length ==> tiles[r] != tiles[s]
    }

    /** The grid, read row by row. */
    ghost predicate HoldsGrid(g: seq<seq<TileRecord>>)
      reads tiles, Rows()
    {
      && tiles.Length == |g|
      && forall r :: 0 <= r < |g| ==> tiles[r].Length == |g[r]| && tiles[r][..] == g[r]
    }

    /** Lays out a decoded layout in freshly allocated memory, one array per row. */
    constructor (d: Decoded)
      ensures width == d.width && height == d.height && act == d.act && objects == d.objects
      ensures Valid() && HoldsGrid(d.tiles)
      ensures fresh(tiles) && fresh(Rows())
    {
      var none := new TileRecord[0];
      var rows := new array<TileRecord>[|d.tiles|](_ => none);
      for i := 0 to |d.tiles|
        invariant forall r :: 0 <= r < i ==> fresh(rows[r])
        invariant forall r :: 0 <= r < i ==> rows[r].Length == |d.tiles[r]| && rows[r][..] == d.tiles[r]
        invariant forall r, s :: 0 <= r < s < i ==> rows[r] != rows[s]
      {
        var row := d.tiles[i];
        rows[i] := new TileRecord[|row|](c requires 0 <= c < |row| => row[c]);
      }
      width, height, act, objects := d.width, d.height, d.act, d.objects;
      tiles := rows;
    }
  }
}
