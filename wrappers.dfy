/** Option and Result values, and the one failure the pipeline can hit:
    a pandas frame built from an empty list has no columns, so the first
    column lookup on it raises KeyError. */
module Wrappers {

  datatype Option<+T> = None | Some(value: T)

  datatype Result<+T, +E> = Success(value: T) | Failure(error: E)

  /** A column looked up on a frame that does not have it (pandas KeyError). */
  datatype FrameError = MissingColumn(column: string)
}
