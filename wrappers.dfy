/** Failure-carrying values shared by the feature pipeline and the exceptions its code can raise. */
module Wrappers {

  datatype Option<+T> = None | Some(value: T)

  /** The exceptions the dataset code raises on its own (nothing in it catches them). */
  datatype Exception =
    | PopFromEmptyList    // IndexError from list.pop() on an empty list
    | LastOfEmptyList     // IndexError from xs[-1] on an empty list
    | AssertionFailed     // a padded field whose length is not max_seq_length
    | LabelNotANumber     // TypeError from formatting a label that is not a number with %d

  datatype Result<+T> = Ok(value: T) | Err(error: Exception)
}
