/** Python's `None`-or-value, as the analyzers use it for stages, baselines and feedback. */
module Wrappers {

  datatype Option<+T> = None | Some(value: T)

}
