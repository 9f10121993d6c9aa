/** What the DT1 (tile graphics) decoder yields, as far as the stamp uses it (package d2dt1). */
module D2dt1 {

  /** One graphical tile variant. `style`, `sequence` and `tileType` form its lookup key;
      `blocks` stands for the decoded graphics, which the stamp carries through untouched. */
  datatype Tile = Tile(style: int, sequence: int, tileType: int, blocks: seq<int>)
}
