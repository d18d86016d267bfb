/**
 Stock datatypes shared by the models.
 */
module Outcomes {

  datatype Option<+T> = None | Some(value: T)

  // What a step or a schedule of steps comes to: a state, a step that could not be taken
  // there, or a violated assertion (an assert of the source, or a null dereference).
  datatype Outcome<+S> = Ok(state: S) | Blocked | Crash
}
