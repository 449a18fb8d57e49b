/** The optional value used where the simulator looks something up that may be absent. */
module Wrappers {

  datatype Option<+T> = None | Some(value: T)
}
