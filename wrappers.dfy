/** Small optional-value datatype shared by the render-graph modules. */
module Wrappers {
  datatype Option<+T> = None | Some(value: T)
}
