/** Values shared by every part of the model. */
module Basics {

  /** A Java reference that may be null: `None` stands for null. */
  datatype Option<+T> = None | Some(value: T)

  /** A reading of the clock (`LocalDateTime.now()`), supplied by the caller. */
  type Time = int
}
