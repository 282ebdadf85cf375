/** The optional value the pipeline uses for "the engine returned nothing" (Python's None). */
module Wrappers {

  datatype Option<+T> = None | Some(value: T)
}
