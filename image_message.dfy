/**
 * The status-text formatter used by the interactor styler (`ImageMessage` in
 * the viewer). Its string layout lives in a header that is not part of this
 * model, so a status text is represented by the formatter call that produced
 * it: the formatter's name and the arguments it was given.
 */
module ImageMessage {

  /** What a status text mapper currently displays. */
  datatype StatusText =
    | NoText                                        // nothing handed to the mapper yet
    | SliceNumberFormat(slice: int, maxSlice: int)  // "slice / last slice"
    | WindowLevelFormat(level: int)                 // truncated window level
    | WindowFormat(width: int)                      // truncated window width
}
