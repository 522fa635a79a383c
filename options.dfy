/** The nullable values of the script (`currentCoords = null`, `currentMarker = null`). */
module Options {
  datatype Option<+T> = None | Some(value: T)
}
