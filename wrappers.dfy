/** Option, standing for a TypeScript field that may be absent (`field?: T`). */
module Wrappers {

  datatype Option<+T> = None | Some(value: T)
}
