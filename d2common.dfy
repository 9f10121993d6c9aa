/** Shared value types of the engine (package d2common). */
module D2common {

  /** One waypoint of a creature's movement path. */
  datatype Path = Path(x: int, y: int, action: int)

  /** A width and a height, in tiles. */
  datatype Size = Size(width: int, height: int)
}
